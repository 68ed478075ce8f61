/** Scrubbing a decoded JSON document: the meaning of the rewrite, path by path. */
module Capture {
  import opened Wrappers
  import opened Text

  datatype Scalar = Null | Bool(b: bool) | Number(n: real) | Str(s: string)

  datatype Json = Leaf(scalar: Scalar) | List(items: seq<Json>) | Obj(members: map<string, Json>)

  const IdPlaceholder := "00112233445566778899AABBCCDDEEFF"

  /** The keys whose values identify a household, and what replaces them. */
  const Secrets: map<string, string> := map[
    "serial" := "aabbccddeeff",
    "unique_id" := IdPlaceholder,
    "gas_unique_id" := "FFEEDDCCBBAA99887766554433221100",
    "unique_gas_id" := "FFEEDDCCBBAA99887766554433221100",
    "wifi_ssid" := "My Wi-Fi"]

  predicate IsString(d: Json) {
    d.Leaf? && d.scalar.Str?
  }

  function String(s: string): Json {
    Leaf(Str(s))
  }

  /** fmt's %02d. */
  function TwoDigits(i: nat): string {
    if i < 10 then "0" + Decimal(i) else Decimal(i)
  }

  /** The identifier of the i-th element of a list. */
  function Suffixed(id: string, i: nat): string
    requires |id| >= 2
  {
    id[..|id| - 2] + TwoDigits(i)
  }

  predicate HasIdentifier(d: Json) {
    d.Obj? && "unique_id" in d.members && IsString(d.members["unique_id"])
  }

  /** An element of a list, once its own secrets are gone, gets its position as a suffix. */
  function Numbered(d: Json, i: nat): Json
    requires HasIdentifier(d) ==> |d.members["unique_id"].scalar.s| >= 2
  {
    if HasIdentifier(d) then
      Obj(d.members["unique_id" := String(Suffixed(d.members["unique_id"].scalar.s, i))])
    else d
  }

  /** What walk leaves of a document. */
  function Scrubbed(doc: Json): (r: Json)
    ensures HasIdentifier(r) <==> HasIdentifier(doc)
    ensures HasIdentifier(r) ==> r.members["unique_id"] == String(IdPlaceholder)
  {
    match doc
    case Leaf(_) => doc
    case List(items) => List(seq(|items|, i requires 0 <= i < |items| => Numbered(Scrubbed(items[i]), i)))
    case Obj(members) =>
      Obj(map key | key in members ::
            if key in Secrets && IsString(members[key]) then String(Secrets[key]) else Scrubbed(members[key]))
  }

  // ---- identifiers ----

  lemma {:induction false} NoLeadingZero(n: nat)
    requires n > 0
    ensures Decimal(n)[0] != '0'
  {
    if n >= 10 { NoLeadingZero(n / 10); }
  }

  /** The number itself in decimal, with one zero in front if it has a single digit. */
  lemma TwoDigitsPrint(i: nat)
    ensures AllDigits(TwoDigits(i)) && Value(TwoDigits(i)) == i
    ensures i < 100 ==> |TwoDigits(i)| == 2
    ensures i >= 100 ==> TwoDigits(i)[0] != '0'
  {
    DecimalRoundTrip(i);
    DecimalLength(i, 2);
    assert Pow10(2) == 100;
    if i < 10 {
      assert Decimal(i)[..0] == [] && TwoDigits(i)[..1] == ['0'] && TwoDigits(i)[..1][..0] == [];
    } else {
      NoLeadingZero(i);
    }
  }

  lemma TwoDigitsInjective(i: nat, j: nat)
    requires TwoDigits(i) == TwoDigits(j)
    ensures i == j
  {
    if (i < 10) == (j < 10) {
      if i < 10 {
        assert TwoDigits(i)[1..] == Decimal(i) && TwoDigits(j)[1..] == Decimal(j);
      }
      DecimalInjective(i, j);
    } else {
      NoLeadingZero(if i < 10 then j else i);
    }
  }

  /** The elements of one list keep telling themselves apart. */
  lemma IdentifiersStayDistinct(items: seq<Json>, i: nat, j: nat)
    requires i < j < |items| && HasIdentifier(items[i]) && HasIdentifier(items[j])
    ensures var r := Scrubbed(List(items)).items;
            && HasIdentifier(r[i]) && HasIdentifier(r[j])
            && r[i].members["unique_id"] != r[j].members["unique_id"]
  {
    var a, b := Suffixed(IdPlaceholder, i), Suffixed(IdPlaceholder, j);
    assert a[30..] == TwoDigits(i) && b[30..] == TwoDigits(j);
    if a == b { TwoDigitsInjective(i, j); }
  }

  // ---- every path of the document ----

  datatype Step = Key(key: string) | Index(index: nat)

  function Child(d: Json, step: Step): Option<Json> {
    match step
    case Key(k) => if d.Obj? && k in d.members then Some(d.members[k]) else None
    case Index(i) => if d.List? && i < |d.items| then Some(d.items[i]) else None
  }

  function At(d: Json, path: seq<Step>): Option<Json> {
    if path == [] then Some(d)
    else
      match Child(d, path[0])
      case None => None
      case Some(child) => At(child, path[1..])
  }

  /** The keys whose strings name a household or one of its meters. */
  predicate Identifies(key: string) {
    key == "serial" || key == "unique_id" || key == "gas_unique_id" || key == "unique_gas_id" || key == "wifi_ssid"
  }

  /**
   What must be left of the string under a key: its placeholder if the key identifies, in an element of a list with
   the element's position at the end of its identifier, and the string itself under every other key.
   */
  function Left(above: seq<Step>, key: string, s: string): string {
    if key == "serial" then "aabbccddeeff"
    else if key == "gas_unique_id" || key == "unique_gas_id" then "FFEEDDCCBBAA99887766554433221100"
    else if key == "wifi_ssid" then "My Wi-Fi"
    else if key != "unique_id" then s
    else if above != [] && above[|above| - 1].Index? then
      "00112233445566778899AABBCCDDEE" + TwoDigits(above[|above| - 1].index)
    else "00112233445566778899AABBCCDDEEFF"
  }

  /** What a plain value at this path must become; only strings under a key ever change. */
  function Replacement(path: seq<Step>, value: Scalar): Scalar {
    var n := |path|;
    if value.Str? && n > 0 && path[n - 1].Key? then Str(Left(path[..n - 1], path[n - 1].key, value.s)) else value
  }

  /** Same kind, same length, same keys; a plain value becomes its replacement. */
  predicate SameShape(before: Json, after: Json, path: seq<Step>) {
    match before
    case Leaf(x) => after == Leaf(Replacement(path, x))
    case List(items) => after.List? && |after.items| == |items|
    case Obj(members) => after.Obj? && after.members.Keys == members.Keys
  }

  /** The table holds exactly the keys that identify, with exactly these placeholders. */
  lemma TableIsComplete(key: string)
    ensures key in Secrets <==> Identifies(key)
    ensures key in Secrets ==> Secrets[key] == Left([], key, "")
    ensures IdPlaceholder[..30] == "00112233445566778899AABBCCDDEE"
  {
  }

  lemma NumberedElsewhere(d: Json, i: nat, path: seq<Step>)
    requires HasIdentifier(d) ==> |d.members["unique_id"].scalar.s| >= 2
    requires path != [] && path != [Key("unique_id")]
    ensures At(Numbered(d, i), path) == At(d, path)
  {
  }

  lemma NumberedHere(child: Json, i: nat)
    ensures var rest := [Key("unique_id")];
            var before, after := At(child, rest), At(Numbered(Scrubbed(child), i), rest);
            && (after.Some? <==> before.Some?)
            && (before.Some? ==> SameShape(before.value, after.value, [Index(i)] + rest))
  {
    TableIsComplete("unique_id");
    var path := [Index(i), Key("unique_id")];
    assert [Index(i)] + [Key("unique_id")] == path && path[1].key == "unique_id" && path[0].index == i;
  }

  /** What a value becomes depends on the end of its path alone. */
  lemma ReplacementBelow(path: seq<Step>, x: Scalar)
    requires path != [] && !(|path| == 1 && path[0].Key?)
    requires !(|path| == 2 && path[0].Index? && path[1] == Key("unique_id"))
    ensures Replacement(path, x) == Replacement(path[1..], x)
  {
    var rest := path[1..];
    if |path| > 1 {
      assert path[..|path| - 1][1..] == rest[..|rest| - 1];
      assert rest[|rest| - 1] == path[|path| - 1];
    }
  }

  /** One member of an object. */
  lemma MemberShape(members: map<string, Json>, key: string)
    requires key in members
    ensures SameShape(members[key], Scrubbed(Obj(members)).members[key], [Key(key)])
  {
    TableIsComplete(key);
    assert [Key(key)][..0] == [];
  }

  lemma RootShape(doc: Json)
    ensures SameShape(doc, Scrubbed(doc), [])
  {
  }

  lemma NumberedKeepsShape(child: Json, i: nat)
    ensures child.Leaf? ==> Numbered(Scrubbed(child), i) == child
    ensures child.List? ==> Numbered(Scrubbed(child), i) == Scrubbed(child)
    ensures child.Obj? ==>
              Numbered(Scrubbed(child), i).Obj? && Numbered(Scrubbed(child), i).members.Keys == child.members.Keys
  {
  }

  /** The result has exactly the paths of the input, and at each of them exactly what the path calls for. */
  lemma {:induction false} PathByPath(doc: Json, path: seq<Step>)
    ensures At(Scrubbed(doc), path).Some? <==> At(doc, path).Some?
    ensures At(doc, path).Some? ==> SameShape(At(doc, path).value, At(Scrubbed(doc), path).value, path)
    decreases |path|
  {
    RootShape(doc);
    hide Replacement, Numbered, Suffixed;
    if path != [] && Child(doc, path[0]).Some? {
      var rest, child := path[1..], Child(doc, path[0]).value;
      PathByPath(child, rest);
      assert path == [path[0]] + rest;
      if |path| == 1 && path[0].Key? {
        assert path == [Key(path[0].key)] && rest == [];
        MemberShape(doc.members, path[0].key);
      } else if path[0].Index? && rest == [Key("unique_id")] {
        NumberedHere(child, path[0].index);
      } else {
        forall x: Scalar ensures Replacement(path, x) == Replacement(rest, x) { ReplacementBelow(path, x); }
        if path[0].Index? && rest != [] {
          NumberedElsewhere(Scrubbed(child), path[0].index, rest);
        } else if path[0].Index? {
          NumberedKeepsShape(child, path[0].index);
        }
      }
    }
  }

  /** Key by key: a string is left as Left says, wherever in the document it stands. */
  lemma StringsByKey(doc: Json, above: seq<Step>, key: string, s: string)
    requires At(doc, above + [Key(key)]) == Some(String(s))
    ensures At(Scrubbed(doc), above + [Key(key)]) == Some(String(Left(above, key, s)))
  {
    hide Scrubbed, At, Left;
    var path := above + [Key(key)];
    assert path[..|path| - 1] == above && path[|path| - 1] == Key(key);
    PathByPath(doc, path);
  }

  // ---- nothing else is lost, and nothing identifying is left ----

  /** Equal but for the strings at the keys that identify. */
  predicate Alike(a: Json, b: Json) {
    match a
    case Leaf(_) => b == a
    case List(items) =>
      b.List? && |b.items| == |items| && forall i | 0 <= i < |items| :: Alike(items[i], b.items[i])
    case Obj(members) =>
      && b.Obj? && b.members.Keys == members.Keys
      && forall k | k in members ::
           (Identifies(k) && IsString(members[k]) && IsString(b.members[k])) || Alike(members[k], b.members[k])
  }

  lemma NumberedSame(a: Json, b: Json, i: nat)
    requires HasIdentifier(a) ==> a.members["unique_id"] == String(IdPlaceholder)
    requires HasIdentifier(b) ==> b.members["unique_id"] == String(IdPlaceholder)
    ensures Numbered(a, i) == Numbered(b, i) <==> a == b
  {
    if Numbered(a, i) == Numbered(b, i) {
      assert HasIdentifier(a) == HasIdentifier(Numbered(a, i)) && HasIdentifier(b) == HasIdentifier(Numbered(b, i));
      if HasIdentifier(a) {
        assert a.members == Numbered(a, i).members["unique_id" := String(IdPlaceholder)];
        assert b.members == Numbered(b, i).members["unique_id" := String(IdPlaceholder)];
      }
    }
  }

  lemma ListsAlike(items: seq<Json>, other: seq<Json>)
    requires |items| == |other|
    requires forall i | 0 <= i < |items| :: Scrubbed(items[i]) == Scrubbed(other[i]) <==> Alike(items[i], other[i])
    ensures Scrubbed(List(items)) == Scrubbed(List(other)) <==> Alike(List(items), List(other))
  {
    var a, b := Scrubbed(List(items)).items, Scrubbed(List(other)).items;
    forall i | 0 <= i < |items| ensures a[i] == b[i] <==> Alike(items[i], other[i]) {
      NumberedSame(Scrubbed(items[i]), Scrubbed(other[i]), i);
    }
    assert (forall i | 0 <= i < |items| :: a[i] == b[i]) <==> a == b;
  }

  lemma ObjectsAlike(members: map<string, Json>, other: map<string, Json>)
    requires other.Keys == members.Keys
    requires forall k | k in members :: Scrubbed(members[k]) == Scrubbed(other[k]) <==> Alike(members[k], other[k])
    ensures Scrubbed(Obj(members)) == Scrubbed(Obj(other)) <==> Alike(Obj(members), Obj(other))
  {
    var a, b := Scrubbed(Obj(members)).members, Scrubbed(Obj(other)).members;
    forall k | k in members
      ensures a[k] == b[k] <==>
              (Identifies(k) && IsString(members[k]) && IsString(other[k])) || Alike(members[k], other[k])
    {
      TableIsComplete(k);
    }
    hide Identifies, IsString;
    assert (forall k | k in members :: a[k] == b[k]) <==> a == b;
  }

  /**
   Two documents scrub to the same result if and only if they differ in secret strings alone: the
   result carries all of the rest and nothing of those.
   */
  lemma {:induction false} KeepsAllButSecrets(a: Json, b: Json)
    ensures Scrubbed(a) == Scrubbed(b) <==> Alike(a, b)
  {
    match a
    case Leaf(_) =>
    case List(items) =>
      if b.List? && |b.items| == |items| {
        forall i | 0 <= i < |items|
          ensures Scrubbed(items[i]) == Scrubbed(b.items[i]) <==> Alike(items[i], b.items[i])
        {
          KeepsAllButSecrets(items[i], b.items[i]);
        }
        ListsAlike(items, b.items);
        assert a == List(items) && b == List(b.items);
      } else if b.List? {
        assert |Scrubbed(a).items| == |items| && |Scrubbed(b).items| == |b.items|;
      }
    case Obj(members) =>
      if b.Obj? && b.members.Keys == members.Keys {
        forall k | k in members
          ensures Scrubbed(members[k]) == Scrubbed(b.members[k]) <==> Alike(members[k], b.members[k])
        {
          KeepsAllButSecrets(members[k], b.members[k]);
        }
        ObjectsAlike(members, b.members);
        assert a == Obj(members) && b == Obj(b.members);
      } else if b.Obj? {
        assert Scrubbed(a).members.Keys == members.Keys && Scrubbed(b).members.Keys == b.members.Keys;
      }
  }

  lemma {:induction false} AlikeAfter(doc: Json)
    ensures Alike(Scrubbed(doc), doc)
  {
    match doc
    case Leaf(_) =>
    case List(items) =>
      forall i | 0 <= i < |items| ensures Alike(Scrubbed(doc).items[i], items[i]) {
        AlikeAfter(items[i]);
      }
    case Obj(members) =>
      forall k | k in members && !(k in Secrets && IsString(members[k]))
        ensures Alike(Scrubbed(members[k]), members[k])
      {
        AlikeAfter(members[k]);
      }
  }

  /** Scrubbing again changes nothing. */
  lemma ScrubbingIsIdempotent(doc: Json)
    ensures Scrubbed(Scrubbed(doc)) == Scrubbed(doc)
  {
    AlikeAfter(doc);
    KeepsAllButSecrets(Scrubbed(doc), doc);
  }
}
