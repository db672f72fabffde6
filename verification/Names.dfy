/** Unit names: normalization and the order-preserving duplicate filter.

Names are modelled as ASCII text. Every list a graph node keeps has gone through
`UniqueStable`, and the planner filters already normalized lists again, so it
matters that normalization is idempotent: otherwise a second pass could rename an
edge's endpoint. */
module Names {

  /** A unit name. The wrapper keeps the text out of proofs that only compare names. */
  datatype Name = Name(text: string)

  const NONAME := Name("")

  const KIND_SUFFIXES: seq<string> := [".service", ".timer", ".target", ".registry", ".eventlog", ".path"]

  predicate IsSpace(c: char) {
    c in " \t\n\r" || c as int == 11 || c as int == 12
  }

  function LowerChar(c: char): char {
    if 'A' <= c <= 'Z' then (c as int + 32) as char else c
  }

  function Lower(s: string): (r: string)
    ensures |r| == |s|
    ensures forall i :: 0 <= i < |s| ==> r[i] == LowerChar(s[i])
  {
    seq(|s|, i requires 0 <= i < |s| => LowerChar(s[i]))
  }

  function TrimLeft(s: string): (r: string)
    ensures |r| <= |s|
    ensures r != "" ==> !IsSpace(r[0])
  {
    if s != "" && IsSpace(s[0]) then TrimLeft(s[1..]) else s
  }

  function TrimRight(s: string): (r: string)
    ensures r <= s
    ensures r != "" ==> !IsSpace(r[|r| - 1])
  {
    if s != "" && IsSpace(s[|s| - 1]) then TrimRight(s[..|s| - 1]) else s
  }

  function Trim(s: string): (r: string)
    ensures r != "" ==> !IsSpace(r[0]) && !IsSpace(r[|r| - 1])
  {
    TrimRight(TrimLeft(s))
  }

  predicate EndsWith(s: string, suffix: string) {
    |suffix| <= |s| && s[|s| - |suffix|..] == suffix
  }

  predicate HasKind(s: string) {
    exists k :: 0 <= k < |KIND_SUFFIXES| && EndsWith(s, KIND_SUFFIXES[k])
  }

  function Normalize(name: Name): Name {
    var s := Lower(Trim(name.text));
    if s == "" || HasKind(s) then Name(s) else Name(s + ".service")
  }

  lemma {:induction false} NormalizeIdempotent(name: Name)
    ensures Normalize(Normalize(name)) == Normalize(name)
  {
    var s := Lower(Trim(name.text));
    TrimmedIsNormal(name.text);
    assert Lower(Trim("")) == "";
    hide Lower, Trim, Normal;
    if s != "" {
      NormalFixed(s);
      if !HasKind(s) {
        assert EndsWith(s + ".service", KIND_SUFFIXES[0]);
        NormalSuffix(s);
        NormalFixed(s + ".service");
      }
    }
  }

  /** A stored name: lower case, trimmed and of one of the six kinds. */
  lemma {:induction false} NormalizedMeans(name: Name)
    ensures var t := Lower(Trim(name.text));
      Normalize(name) == Name(if t == "" || EndsWith(t, ".service") || EndsWith(t, ".timer") || EndsWith(t, ".target")
                                 || EndsWith(t, ".registry") || EndsWith(t, ".eventlog") || EndsWith(t, ".path") then t else t + ".service")
  {
    hide Lower, Trim, EndsWith;
    var t := Lower(Trim(name.text));
    assert KIND_SUFFIXES[0] == ".service" && KIND_SUFFIXES[1] == ".timer" && KIND_SUFFIXES[2] == ".target";
    assert KIND_SUFFIXES[3] == ".registry" && KIND_SUFFIXES[4] == ".eventlog" && KIND_SUFFIXES[5] == ".path";
  }

  /** A text that trimming and lower-casing leave alone. */
  predicate Normal(s: string) {
    s != "" && !IsSpace(s[0]) && !IsSpace(s[|s| - 1]) && forall i :: 0 <= i < |s| ==> LowerChar(s[i]) == s[i]
  }

  lemma {:induction false} TrimmedIsNormal(text: string)
    ensures Lower(Trim(text)) != "" ==> Normal(Lower(Trim(text)))
  {}

  lemma {:induction false} NormalSuffix(s: string)
    requires Normal(s)
    ensures Normal(s + ".service")
  {
    assert (s + ".service")[0] == s[0];
  }

  lemma {:induction false} NormalFixed(s: string)
    requires Normal(s)
    ensures Lower(Trim(s)) == s
  {
    assert Trim(s) == s;
    assert Lower(s) == s;
  }

  predicate NoDuplicates<T(==)>(s: seq<T>) {
    forall i, j :: 0 <= i < j < |s| ==> s[i] != s[j]
  }

  function Elements<T>(s: seq<T>): set<T> {
    set x | x in s
  }

  function NormalizeAll(input: seq<Name>): seq<Name> {
    if input == [] then [] else NormalizeAll(input[..|input| - 1]) + [Normalize(input[|input| - 1])]
  }

  lemma {:induction false} NormalizeAllAt(input: seq<Name>)
    ensures |NormalizeAll(input)| == |input|
    ensures forall i :: 0 <= i < |input| ==> NormalizeAll(input)[i] == Normalize(input[i])
  {
    hide Normalize;
    if input != [] {
      NormalizeAllAt(input[..|input| - 1]);
    }
  }

  /** Every element is a stored name: non-empty and unchanged by normalization. */
  predicate CanonicalList(names: seq<Name>) {
    NONAME !in names && NormalizeAll(names) == names
  }

  lemma {:induction false} CanonicalElement(names: seq<Name>, x: Name)
    requires CanonicalList(names) && x in names
    ensures Normalize(x) == x && x != NONAME
  {
    NormalizeAllAt(names);
  }

  lemma {:induction false} CanonicalIntro(names: seq<Name>)
    requires forall i :: 0 <= i < |names| ==> names[i] != NONAME && Normalize(names[i]) == names[i]
    ensures CanonicalList(names)
  {
    NormalizeAllAt(names);
  }

  /** Keep the first occurrence of every non-empty name. */
  function FirstOccurrences(names: seq<Name>): seq<Name> {
    if names == [] then []
    else
      var last := |names| - 1;
      var rest := FirstOccurrences(names[..last]);
      if names[last] == NONAME || names[last] in rest then rest else rest + [names[last]]
  }

  lemma {:induction false} FirstOccurrencesSound(names: seq<Name>)
    ensures NoDuplicates(FirstOccurrences(names))
    ensures forall x :: x in FirstOccurrences(names) <==> x != NONAME && x in names
  {
    if names != [] {
      FirstOccurrencesSound(names[..|names| - 1]);
      assert names == names[..|names| - 1] + [names[|names| - 1]];
    }
  }

  /** Filtering a second time neither renames nor reorders. */
  lemma {:induction false} FirstOccurrencesFixpoint(names: seq<Name>)
    requires NoDuplicates(names) && NONAME !in names
    ensures FirstOccurrences(names) == names
  {
    if names != [] {
      var last := |names| - 1;
      FirstOccurrencesFixpoint(names[..last]);
      assert names == names[..last] + [names[last]];
      assert names[last] !in names[..last];
    }
  }

  function UniqueStable(input: seq<Name>): seq<Name> {
    FirstOccurrences(NormalizeAll(input))
  }

  lemma {:induction false} UniqueStableCanonical(input: seq<Name>)
    ensures CanonicalList(UniqueStable(input)) && NoDuplicates(UniqueStable(input))
  {
    var out := UniqueStable(input);
    NormalizeAllAt(input);
    FirstOccurrencesSound(NormalizeAll(input));
    forall i | 0 <= i < |out| ensures out[i] != NONAME && Normalize(out[i]) == out[i] {
      assert out[i] in NormalizeAll(input);
      var k :| 0 <= k < |input| && NormalizeAll(input)[k] == out[i];
      NormalizeIdempotent(input[k]);
    }
    CanonicalIntro(out);
  }

  lemma {:induction false} UniqueStableNext(input: seq<Name>, i: nat)
    requires i < |input|
    ensures var s, before := Normalize(input[i]), UniqueStable(input[..i]);
      UniqueStable(input[..i + 1]) == if s == NONAME || s in before then before else before + [s]
  {
    hide Normalize;
    var names := NormalizeAll(input[..i + 1]);
    NormalizeAllAt(input[..i]);
    NormalizeAllAt(input[..i + 1]);
    assert names[..i] == NormalizeAll(input[..i]);
    FirstOccurrencesSound(names[..i]);
  }

  /** `uniqueStable`: one pass with a seen set computes the two-stage form. */
  method FilterUnique(input: seq<Name>) returns (out: seq<Name>)
    ensures out == UniqueStable(input)
  {
    var seen: set<Name> := {};
    out := [];
    for i := 0 to |input|
      invariant out == UniqueStable(input[..i])
      invariant seen == Elements(out)
    {
      hide UniqueStable, Normalize, Elements;
      UniqueStableNext(input, i);
      var s := Normalize(input[i]);
      ElementsMeans(out, s);
      if s == NONAME { continue; }
      if s in seen { continue; }
      seen := seen + {s};
      out := out + [s];
    }
    assert input[..|input|] == input;
  }

  /** Go's maps and sorted key lists are visited in some order; every result here
      holds for whichever order is taken. */
  method SomeOrder(names: set<Name>) returns (order: seq<Name>)
    ensures Elements(order) == names
    ensures NoDuplicates(order)
    ensures |order| == |names|
  {
    order := [];
    var left := names;
    while left != {}
      invariant left <= names
      invariant Elements(order) == names - left
      invariant NoDuplicates(order)
      invariant |order| + |left| == |names|
      decreases left
    {
      var x :| x in left;
      left := left - {x};
      assert Elements(order + [x]) == Elements(order) + {x};
      assert x !in order by { assert x !in Elements(order); }
      order := order + [x];
    }
  }

  lemma {:induction false} ElementsMeans<T>(s: seq<T>, x: T)
    ensures x in s <==> x in Elements(s)
    ensures Elements(s + [x]) == Elements(s) + {x}
  {}

  lemma {:induction false} OneMore<T>(s: seq<T>, x: T)
    requires x !in Elements(s) && NoDuplicates(s)
    ensures Elements(s + [x]) == Elements(s) + {x} && NoDuplicates(s + [x])
  {}

  lemma {:induction false} Regrouped<T>(a: seq<T>, b: seq<T>, c: seq<T>)
    ensures (a + b) + c == a + (b + c)
  {}

  /** Distinct elements drawn from a finite set are no more than the set has. */
  lemma {:induction false} DistinctFit<T>(s: seq<T>, bound: set<T>)
    requires NoDuplicates(s)
    requires forall x :: x in s ==> x in bound
    ensures |s| <= |bound|
    ensures |Elements(s)| == |s|
  {
    if s != [] {
      var last := |s| - 1;
      var x := s[last];
      assert s == s[..last] + [x];
      DistinctFit(s[..last], bound - {x});
      assert Elements(s) == Elements(s[..last]) + {x};
    }
  }
}
