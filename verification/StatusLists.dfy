/** The disk lists of a VitastorNode's status and their comparison with a report. */
module StatusLists {

  /** A Go slice of strings as it is stored: never set, or set to some items. */
  datatype GoList = Nil | Items(items: seq<string>)

  function Values(l: GoList): seq<string> {
    match l case Nil => [] case Items(xs) => xs
  }

  // ------------------------------------------------------------ string order

  /** Go's a < b on strings. */
  predicate Less(a: string, b: string) {
    b != "" && (a == "" || a[0] < b[0] || (a[0] == b[0] && Less(a[1..], b[1..])))
  }

  lemma {:induction false} LessIsTotal(a: string, b: string)
    ensures a == b || Less(a, b) || Less(b, a)
    ensures !(Less(a, b) && Less(b, a)) && !Less(a, a)
  {
    if a != "" && b != "" {
      LessIsTotal(a[1..], b[1..]);
      if a[0] == b[0] && a[1..] == b[1..] {
        assert a == [a[0]] + a[1..] && b == [b[0]] + b[1..];
      }
    }
    if a != "" {
      LessIsTotal(a[1..], a[1..]);
    }
  }

  lemma {:induction false} LessIsTransitive(a: string, b: string, c: string)
    requires Less(a, b) && Less(b, c)
    ensures Less(a, c)
  {
    if a != "" && a[0] == b[0] && b[0] == c[0] {
      LessIsTransitive(a[1..], b[1..], c[1..]);
    }
  }

  // ---------------------------------------------------------------- sorting

  function Insert(x: string, xs: seq<string>): seq<string> {
    if xs == [] || !Less(xs[0], x) then [x] + xs else [xs[0]] + Insert(x, xs[1..])
  }

  function Sort(xs: seq<string>): seq<string> {
    if xs == [] then [] else Insert(xs[0], Sort(xs[1..]))
  }

  ghost predicate IsSorted(xs: seq<string>) {
    forall i, j :: 0 <= i < j < |xs| ==> !Less(xs[j], xs[i])
  }

  lemma {:induction false} InsertMembers(x: string, xs: seq<string>)
    ensures multiset(Insert(x, xs)) == multiset(xs) + multiset{x}
  {
    if xs != [] {
      InsertMembers(x, xs[1..]);
      assert xs == [xs[0]] + xs[1..];
    }
  }

  lemma {:induction false} InsertSorted(x: string, xs: seq<string>)
    requires IsSorted(xs)
    ensures IsSorted(Insert(x, xs))
  {
    if xs == [] || !Less(xs[0], x) {
      forall j | 0 <= j < |xs| ensures !Less(xs[j], x) {
        if Less(xs[j], x) && j > 0 {
          LessIsTotal(xs[0], xs[j]);
          if xs[0] != xs[j] { LessIsTransitive(xs[0], xs[j], x); }
        }
      }
    } else {
      var rest := Insert(x, xs[1..]);
      InsertSorted(x, xs[1..]);
      InsertMembers(x, xs[1..]);
      LessIsTotal(xs[0], x);
      forall j | 0 <= j < |rest| ensures !Less(rest[j], xs[0]) {
        assert rest[j] in multiset(rest);
        assert rest[j] == x || rest[j] in xs[1..];
      }
    }
  }

  lemma {:induction false} SortSorts(xs: seq<string>)
    ensures IsSorted(Sort(xs)) && multiset(Sort(xs)) == multiset(xs)
  {
    if xs != [] {
      SortSorts(xs[1..]);
      InsertSorted(xs[0], Sort(xs[1..]));
      InsertMembers(xs[0], Sort(xs[1..]));
      assert xs == [xs[0]] + xs[1..];
    }
  }

  lemma HeadsAgree(a: seq<string>, b: seq<string>)
    requires IsSorted(a) && IsSorted(b) && multiset(a) == multiset(b) && a != []
    ensures b != [] && a[0] == b[0]
  {
    assert a[0] in multiset(b);
    assert b[0] in multiset(a);
    var i :| 0 <= i < |b| && b[i] == a[0];
    var j :| 0 <= j < |a| && a[j] == b[0];
    LessIsTotal(a[0], b[0]);
  }

  lemma {:induction false} SortedIsUnique(a: seq<string>, b: seq<string>)
    requires IsSorted(a) && IsSorted(b) && multiset(a) == multiset(b)
    ensures a == b
  {
    assert |multiset(a)| == |a| && |multiset(b)| == |b|;
    if a != [] {
      HeadsAgree(a, b);
      assert a == [a[0]] + a[1..] && b == [b[0]] + b[1..];
      assert multiset(a[1..]) == multiset(a) - multiset{a[0]};
      assert multiset(b[1..]) == multiset(b) - multiset{b[0]};
      SortedIsUnique(a[1..], b[1..]);
    }
  }

  // -------------------------------------------------------------- comparison

  /** compareArrays: go-cmp equality under a sorting transform. A nil slice and an empty
      one are different to go-cmp. */
  predicate CompareArrays(x: GoList, y: GoList) {
    (x.Nil? <==> y.Nil?) && Sort(Values(x)) == Sort(Values(y))
  }

  /** Sorting and comparing is multiset equality, nil against empty aside. */
  lemma CompareIsMultisetEquality(x: GoList, y: GoList)
    ensures CompareArrays(x, y) <==> (x.Nil? <==> y.Nil?) && multiset(Values(x)) == multiset(Values(y))
  {
    SortSorts(Values(x));
    SortSorts(Values(y));
    if multiset(Values(x)) == multiset(Values(y)) {
      SortedIsUnique(Sort(Values(x)), Sort(Values(y)));
    }
  }

  function Blanks(n: nat): seq<string> {
    seq(n, _ => "")
  }

  /** The list a pass builds from n reported names: n empty strings, then the names. */
  function Padded(names: seq<string>): seq<string> {
    Blanks(|names|) + names
  }

  method PadNames(names: seq<string>) returns (paths: seq<string>)
    ensures paths == Padded(names)
  {
    paths := Blanks(|names|);
    for i := 0 to |names|
      invariant paths == Blanks(|names|) + names[..i]
    {
      paths := paths + [names[i]];
    }
    assert names[..|names|] == names;
  }

  /** Padding does not blur the comparison: two padded reports compare equal exactly when
      the reports have the same names the same number of times. */
  lemma PaddingIsHarmless(a: seq<string>, b: seq<string>)
    ensures CompareArrays(Items(Padded(a)), Items(Padded(b))) <==> multiset(a) == multiset(b)
  {
    CompareIsMultisetEquality(Items(Padded(a)), Items(Padded(b)));
    var pa, pb := Padded(a), Padded(b);
    assert multiset(pa) == multiset(Blanks(|a|)) + multiset(a);
    assert multiset(pb) == multiset(Blanks(|b|)) + multiset(b);
    assert |multiset(pa)| == |pa| == 2 * |a| && |multiset(pb)| == |pb| == 2 * |b|;
    assert |multiset(a)| == |a| && |multiset(b)| == |b|;
    if |a| == |b| {
      assert Blanks(|a|) == Blanks(|b|);
      assert multiset(a) == multiset(pa) - multiset(Blanks(|a|));
      assert multiset(b) == multiset(pb) - multiset(Blanks(|b|));
    }
  }

  /** Searching the padded list for a non-empty name is searching the report. */
  lemma PaddedMembers(names: seq<string>, path: string)
    ensures path in Padded(names) <==> path in names || (path == "" && names != [])
  {
    if names != [] { assert Padded(names)[0] == ""; }
  }

  /** What is stored, item by item: as many empty strings as there are names, then the names
      in the order of the report. */
  ghost predicate IsPadding(items: seq<string>, names: seq<string>) {
    && |items| == 2 * |names|
    && (forall i :: 0 <= i < |names| ==> items[i] == "" && items[|names| + i] == names[i])
  }

  lemma PaddedIsPadding(names: seq<string>)
    ensures IsPadding(Padded(names), names)
  {
  }

  lemma PaddingIsUnique(items: seq<string>, names: seq<string>)
    requires IsPadding(items, names)
    ensures items == Padded(names)
  {
    forall i | 0 <= i < |items| ensures items[i] == Padded(names)[i] {
      if i >= |names| {
        assert items[|names| + (i - |names|)] == names[i - |names|];
      }
    }
  }

  lemma PaddedExample()
    ensures Padded(["a", "b"]) == ["", "", "a", "b"]
  {
  }
}
