/** The product allow-list as it travels in a query filter: Python's
    `','.join(products)` and, as its partner, `str.split(',')`. */
module ProductFilter {

  /** The filter key that restricts tier-config requests to some products. */
  const ProductKey: string := "configuration__product__id"

  /** `','.join(ps)`: the elements of ps separated by single commas. */
  function Join(ps: seq<string>): string
  {
    if |ps| == 0 then ""
    else if |ps| == 1 then ps[0]
    else ps[0] + "," + Join(ps[1..])
  }

  /** `s.split(',')`: the maximal comma-free pieces of s, in order; one piece
      (the empty string) for the empty string. */
  function Split(s: string): (pieces: seq<string>)
    ensures |pieces| >= 1
  {
    if s == [] then [""]
    else
      var rest := Split(s[1..]);
      if s[0] == ',' then [""] + rest
      else [[s[0]] + rest[0]] + rest[1..]
  }

  predicate CommaFree(s: string)
  {
    forall i :: 0 <= i < |s| ==> s[i] != ','
  }

  /** A comma-free string splits into itself. */
  lemma {:induction false} SplitCommaFree(a: string)
    requires CommaFree(a)
    ensures Split(a) == [a]
  {
    if a != [] {
      assert CommaFree(a[1..]) by {
        forall i | 0 <= i < |a[1..]| ensures a[1..][i] != ',' { assert a[1..][i] == a[i + 1]; }
      }
      SplitCommaFree(a[1..]);
      assert [a[0]] + a[1..] == a;
    }
  }

  /** Splitting `a + "," + b` yields a, then the pieces of b. */
  lemma {:induction false} SplitAfterPiece(a: string, b: string)
    requires CommaFree(a)
    ensures Split(a + "," + b) == [a] + Split(b)
  {
    if a == [] {
      assert a + "," + b == [','] + b;
      assert (a + "," + b)[1..] == b;
    } else {
      assert CommaFree(a[1..]) by {
        forall i | 0 <= i < |a[1..]| ensures a[1..][i] != ',' { assert a[1..][i] == a[i + 1]; }
      }
      SplitAfterPiece(a[1..], b);
      assert (a + "," + b)[1..] == a[1..] + "," + b;
      assert [a[0]] + a[1..] == a;
    }
  }

  /** Round trip: the comma-joined allow-list splits back into the allow-list,
      as long as no product id holds a comma. */
  lemma {:induction false} SplitJoin(ps: seq<string>)
    requires |ps| >= 1
    requires forall i :: 0 <= i < |ps| ==> CommaFree(ps[i])
    ensures Split(Join(ps)) == ps
  {
    if |ps| == 1 {
      SplitCommaFree(ps[0]);
    } else {
      SplitJoin(ps[1..]);
      SplitAfterPiece(ps[0], Join(ps[1..]));
      assert [ps[0]] + ps[1..] == ps;
    }
  }

  /** What a server that splits the joined filter value would admit is
      exactly the allow-list that dispatch checks against. */
  lemma JoinedFilterAdmits(ps: seq<string>, p: string)
    requires |ps| >= 1
    requires forall i :: 0 <= i < |ps| ==> CommaFree(ps[i])
    ensures p in Split(Join(ps)) <==> p in ps
  {
    SplitJoin(ps);
  }
}
