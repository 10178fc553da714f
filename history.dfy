/**
 * The recent-searches list: at most five city names, most recent first, with no two
 * names equal ignoring case. Promotion is what a successful lookup does to it;
 * removal is what the cross button beside an entry does.
 */
module History {
  import opened Text
  import opened Sequences

  /** The most entries the list keeps (`slice(0, 5)`). */
  const MaxEntries: nat := 5

  /** `h.filter(c => c.toLowerCase() !== city.toLowerCase())`. */
  function Without(h: seq<string>, city: string): (r: seq<string>)
    ensures |r| <= |h|
    ensures forall i :: 0 <= i < |r| ==> !SameIgnoringCase(r[i], city)
    ensures forall x :: x in r ==> x in h
  {
    if h == [] then []
    else if SameIgnoringCase(h[0], city) then Without(h[1..], city)
    else [h[0]] + Without(h[1..], city)
  }

  /** The list after a successful lookup of `city`: `[city, ...Without(h, city)].slice(0, 5)`. */
  function Promote(h: seq<string>, city: string): (r: seq<string>)
    ensures 1 <= |r| <= MaxEntries && r[0] == city
  {
    Take([city] + Without(h, city), MaxEntries)
  }

  /** No two entries are equal ignoring case. */
  predicate NoCaseDuplicates(h: seq<string>) {
    forall i, j :: 0 <= i < j < |h| ==> !SameIgnoringCase(h[i], h[j])
  }

  /** `a` is `b` with some elements left out, the rest kept in their order. */
  predicate IsSubsequence(a: seq<string>, b: seq<string>) {
    a == [] || (b != [] && ((a[0] == b[0] && IsSubsequence(a[1..], b[1..])) || IsSubsequence(a, b[1..])))
  }

  /** Filtering removes exactly the case-insensitive matches: every other entry keeps its multiplicity. */
  lemma {:induction false} WithoutCounts(h: seq<string>, city: string, x: string)
    ensures multiset(Without(h, city))[x] == if SameIgnoringCase(x, city) then 0 else multiset(h)[x]
  {
    if h != [] {
      WithoutCounts(h[1..], city, x);
      assert h == [h[0]] + h[1..];
    }
  }

  /** Filtering keeps the surviving entries in their original relative order. */
  lemma {:induction false} WithoutIsSubsequence(h: seq<string>, city: string)
    ensures IsSubsequence(Without(h, city), h)
  {
    if h != [] {
      WithoutIsSubsequence(h[1..], city);
      var w := Without(h[1..], city);
      if !SameIgnoringCase(h[0], city) {
        assert ([h[0]] + w)[1..] == w;
      }
    }
  }

  /** When nothing matches, filtering changes nothing. */
  lemma {:induction false} WithoutNoMatch(h: seq<string>, city: string)
    requires forall i :: 0 <= i < |h| ==> !SameIgnoringCase(h[i], city)
    ensures Without(h, city) == h
  {
    if h != [] {
      WithoutNoMatch(h[1..], city);
      assert h == [h[0]] + h[1..];
    }
  }

  /** When some entry matches, filtering makes the list strictly shorter. */
  lemma {:induction false} WithoutShrinks(h: seq<string>, city: string, k: nat)
    requires k < |h| && SameIgnoringCase(h[k], city)
    ensures |Without(h, city)| < |h|
  {
    if k > 0 && !SameIgnoringCase(h[0], city) {
      WithoutShrinks(h[1..], city, k - 1);
    }
  }

  /** Filtering a list without case-insensitive duplicates leaves one without them. */
  lemma {:induction false} WithoutKeepsNoDuplicates(h: seq<string>, city: string)
    requires NoCaseDuplicates(h)
    ensures NoCaseDuplicates(Without(h, city))
  {
    if h != [] {
      var w := Without(h[1..], city);
      assert NoCaseDuplicates(h[1..]) by {
        forall i, j | 0 <= i < j < |h[1..]| ensures !SameIgnoringCase(h[1..][i], h[1..][j]) {
          assert h[1..][i] == h[i + 1] && h[1..][j] == h[j + 1];
        }
      }
      WithoutKeepsNoDuplicates(h[1..], city);
      if !SameIgnoringCase(h[0], city) {
        forall x | x in w ensures !SameIgnoringCase(h[0], x) {
          var j :| 1 <= j < |h| && h[j] == x;
        }
      }
    }
  }

  /**
   * What a successful lookup of `city` leaves: `city` at the front, at most five entries,
   * and after the head the old entries minus `city`'s case-insensitive matches, in their
   * old order, cut to four.
   */
  lemma PromoteShape(h: seq<string>, city: string)
    ensures var r := Promote(h, city);
      1 <= |r| <= MaxEntries && r[0] == city
      && r[1..] == Take(Without(h, city), MaxEntries - 1)
      && forall i :: 1 <= i < |r| ==> !SameIgnoringCase(r[i], city)
  {
    var w := Without(h, city);
    var r := Promote(h, city);
    assert r[1..] == Take(w, MaxEntries - 1);
  }

  /** Every entry of the promoted list is the new city or was already in the list. */
  lemma PromoteInventsNothing(h: seq<string>, city: string)
    ensures forall x :: x in Promote(h, city) ==> x == city || x in h
  {
    PromoteShape(h, city);
    var r := Promote(h, city);
    forall x | x in r ensures x == city || x in h {
      var i :| 0 <= i < |r| && r[i] == x;
      if i > 0 {
        assert x == Without(h, city)[i - 1];
      }
    }
  }

  /** Looking up a city that is already listed (in any case) does not make the list longer. */
  lemma PromoteExistingNoLonger(h: seq<string>, city: string, k: nat)
    requires k < |h| && SameIgnoringCase(h[k], city)
    ensures |Promote(h, city)| <= |h|
  {
    WithoutShrinks(h, city, k);
  }

  /** Looking up a new city when five are listed evicts the oldest one. */
  lemma PromoteNewCity(h: seq<string>, city: string)
    requires forall i :: 0 <= i < |h| ==> !SameIgnoringCase(h[i], city)
    ensures Promote(h, city) == if |h| < MaxEntries then [city] + h else [city] + h[..MaxEntries - 1]
  {
    WithoutNoMatch(h, city);
  }

  /** Promotion keeps the list free of case-insensitive duplicates. */
  lemma PromoteKeepsNoDuplicates(h: seq<string>, city: string)
    requires NoCaseDuplicates(h)
    ensures NoCaseDuplicates(Promote(h, city))
  {
    var w := Without(h, city);
    WithoutKeepsNoDuplicates(h, city);
    var r := Promote(h, city);
    forall i, j | 0 <= i < j < |r| ensures !SameIgnoringCase(r[i], r[j]) {
      assert r[j] == w[j - 1];
      if i > 0 {
        assert r[i] == w[i - 1];
      }
    }
  }

  /** Looking up the same city twice in a row leaves the list as after the first lookup. */
  lemma PromoteIdempotent(h: seq<string>, city: string)
    ensures Promote(Promote(h, city), city) == Promote(h, city)
  {
    var r := Promote(h, city);
    PromoteShape(h, city);
    assert SameIgnoringCase(r[0], city);
    assert r == [r[0]] + r[1..];
    WithoutNoMatch(r[1..], city);
    assert Without(r, city) == r[1..];
  }

  /** Removal never lengthens the list, and keeps it free of case-insensitive duplicates. */
  lemma RemoveKeepsInvariant(h: seq<string>, city: string)
    requires |h| <= MaxEntries && NoCaseDuplicates(h)
    ensures var r := Without(h, city); |r| <= MaxEntries && NoCaseDuplicates(r)
  {
    WithoutKeepsNoDuplicates(h, city);
  }

  /**
   * Paris, then london, then PARIS, then removing london: the list goes
   * ["Paris"], ["london", "Paris"], ["PARIS", "london"], ["PARIS"].
   */
  lemma ExampleScenario()
    ensures Promote([], "Paris") == ["Paris"]
    ensures Promote(["Paris"], "london") == ["london", "Paris"]
    ensures Promote(["london", "Paris"], "PARIS") == ["PARIS", "london"]
    ensures Without(["PARIS", "london"], "london") == ["PARIS"]
  {
    assert SameIgnoringCase("Paris", "PARIS") by {
      assert Lower("Paris") == "paris" && Lower("PARIS") == "paris";
    }
    assert !SameIgnoringCase("Paris", "london") by {
      assert Lower("Paris")[0] == 'p' && Lower("london")[0] == 'l';
    }
    assert !SameIgnoringCase("london", "PARIS") by {
      assert Lower("london")[0] == 'l' && Lower("PARIS")[0] == 'p';
    }
    assert ["Paris"][1..] == [];
    assert ["london", "Paris"][1..] == ["Paris"];
    assert ["PARIS", "london"][1..] == ["london"];
    assert Without(["Paris"], "london") == ["Paris"];
    assert Without(["Paris"], "PARIS") == [];
    assert Without(["london", "Paris"], "PARIS") == ["london"];
    assert Without(["london"], "london") == [];
  }
}
