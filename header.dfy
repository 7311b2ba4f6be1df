/**
 * The `Allow` header value: `strings.Join(allow, ", ")` (router.go:85).
 *
 * `strings.Join` is Go's standard library; it is modelled as the function
 * below, together with a splitter that recovers the list from the header
 * when no method contains a comma.
 */
module Header {

  const Separator: string := ", "

  /** `strings.Join(elems, ", ")`: the elements in order, separated by ", ". */
  function Join(elems: seq<string>): string
  {
    if elems == [] then ""
    else if |elems| == 1 then elems[0]
    else elems[0] + Separator + Join(elems[1..])
  }

  /** A non-empty header starts with the first element, then ", " if there are more, and ends with the last. */
  lemma {:induction false} JoinShape(elems: seq<string>)
    requires elems != []
    ensures var r, first, last := Join(elems), elems[0], elems[|elems| - 1];
      && |first| <= |r| && r[..|first|] == first
      && |last| <= |r| && r[|r| - |last|..] == last
      && (|elems| > 1 ==> |first| + 2 <= |r| && r[|first|..|first| + 2] == Separator)
  {
    if |elems| > 1 {
      JoinShape(elems[1..]);
      var first, rest, last := elems[0], Join(elems[1..]), elems[|elems| - 1];
      assert last == elems[1..][|elems[1..]| - 1];
      var r := first + Separator + rest;
      assert r == Join(elems);
      assert r[..|first|] == first && r[|first|..|first| + 2] == Separator;
      assert r[|r| - |last|..] == rest[|rest| - |last|..];
    }
  }

  /** Appending an element appends the separator and that element. */
  lemma {:induction false} JoinSnoc(elems: seq<string>, x: string)
    requires elems != []
    ensures Join(elems + [x]) == Join(elems) + Separator + x
  {
    if |elems| == 1 {
      assert (elems + [x])[1..] == [x];
    } else {
      assert (elems + [x])[1..] == elems[1..] + [x];
      JoinSnoc(elems[1..], x);
    }
  }

  predicate NoComma(s: string)
  {
    forall i :: 0 <= i < |s| ==> s[i] != ','
  }

  /** The index of the first ", " in `s`, or `|s|` when there is none. */
  function FindSeparator(s: string): (k: nat)
    ensures k <= |s|
    ensures k < |s| ==> k + 1 < |s| && s[k] == ',' && s[k + 1] == ' '
    ensures forall j :: 0 <= j < k && j + 1 < |s| ==> !(s[j] == ',' && s[j + 1] == ' ')
  {
    if |s| < 2 then |s|
    else if s[0] == ',' && s[1] == ' ' then 0
    else 1 + FindSeparator(s[1..])
  }

  /** Splits a header value at every ", ". */
  function Split(s: string): (r: seq<string>)
    ensures |r| > 0
    decreases |s|
  {
    var k := FindSeparator(s);
    if k == |s| then [s] else [s[..k]] + Split(s[k + 2..])
  }

  lemma FindSeparatorNoComma(e: string)
    requires NoComma(e)
    ensures FindSeparator(e) == |e|
  {
  }

  lemma {:induction false} FindSeparatorAfter(e: string, rest: string)
    requires NoComma(e)
    ensures FindSeparator(e + Separator + rest) == |e|
  {
    if e != [] {
      assert (e + Separator + rest)[1..] == e[1..] + Separator + rest;
      FindSeparatorAfter(e[1..], rest);
    }
  }

  /** A client that splits the header at ", " gets the list back. */
  lemma {:induction false} SplitJoin(elems: seq<string>)
    requires elems != []
    requires forall i :: 0 <= i < |elems| ==> NoComma(elems[i])
    ensures Split(Join(elems)) == elems
  {
    if |elems| == 1 {
      FindSeparatorNoComma(elems[0]);
    } else {
      var s := Join(elems);
      var rest := Join(elems[1..]);
      assert s == elems[0] + Separator + rest;
      FindSeparatorAfter(elems[0], rest);
      assert s[..|elems[0]|] == elems[0];
      assert s[|elems[0]| + 2..] == rest;
      SplitJoin(elems[1..]);
    }
  }
}
