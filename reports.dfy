/** The recycling report of GET /report/:company: the plastics of one
    company, in insertion order, each reduced to `{quantity, recycled}`. */
module Reports {
  import opened Records

  /** One row of the report. */
  datatype Entry = Entry(quantity: int, recycled: bool)

  function Project(p: Plastic): (e: Entry)
  {
    Entry(p.quantity, p.recycled)
  }

  /** `plastics.filter(plastic => plastic.company === company)` */
  function Owned(ps: seq<Plastic>, company: string): (r: seq<Plastic>)
    ensures |r| <= |ps|
    ensures forall k :: 0 <= k < |r| ==> r[k].company == company
    ensures forall p :: p in r <==> p in ps && p.company == company
    decreases |ps|
  {
    if ps == [] then []
    else (if ps[0].company == company then [ps[0]] else []) + Owned(ps[1..], company)
  }

  /** `… .map(plastic => ({quantity, recycled}))` over the filtered plastics. */
  function Report(ps: seq<Plastic>, company: string): (r: seq<Entry>)
    ensures |r| == |Owned(ps, company)| <= |ps|
    ensures forall k :: 0 <= k < |r| ==> r[k] == Project(Owned(ps, company)[k])
  {
    var owned := Owned(ps, company);
    seq(|owned|, k requires 0 <= k < |owned| => Project(owned[k]))
  }

  /** xs can be obtained from ys by deleting elements, keeping the order. */
  ghost predicate Subsequence(xs: seq<Plastic>, ys: seq<Plastic>)
    decreases |ys|
  {
    if |xs| == 0 then true
    else if |ys| == 0 then false
    else (xs[0] == ys[0] && Subsequence(xs[1..], ys[1..])) || Subsequence(xs, ys[1..])
  }

  /** The filter keeps the insertion order of the plastics it keeps. */
  lemma {:induction false} OwnedIsSubsequence(ps: seq<Plastic>, company: string)
    ensures Subsequence(Owned(ps, company), ps)
    decreases |ps|
  {
    if ps != [] {
      OwnedIsSubsequence(ps[1..], company);
      var rest := Owned(ps[1..], company);
      if ps[0].company == company {
        assert Owned(ps, company) == [ps[0]] + rest;
        assert ([ps[0]] + rest)[1..] == rest;
      } else {
        assert Owned(ps, company) == rest;
        if |rest| > 0 {
          assert Subsequence(rest, ps);
        }
      }
    }
  }

  /** The filter keeps every plastic of the company as often as it was
      stored, and nothing else. */
  lemma {:induction false} OwnedMultiplicity(ps: seq<Plastic>, company: string, p: Plastic)
    ensures multiset(Owned(ps, company))[p] == if p.company == company then multiset(ps)[p] else 0
    decreases |ps|
  {
    if ps != [] {
      OwnedMultiplicity(ps[1..], company, p);
      assert ps == [ps[0]] + ps[1..];
      assert multiset(ps) == multiset([ps[0]]) + multiset(ps[1..]);
      var head := if ps[0].company == company then [ps[0]] else [];
      assert multiset(Owned(ps, company)) == multiset(head) + multiset(Owned(ps[1..], company));
    }
  }

  lemma {:induction false} OwnedConcat(a: seq<Plastic>, b: seq<Plastic>, company: string)
    ensures Owned(a + b, company) == Owned(a, company) + Owned(b, company)
    decreases |a|
  {
    if a == [] {
      assert a + b == b;
    } else {
      assert (a + b)[0] == a[0];
      assert (a + b)[1..] == a[1..] + b;
      OwnedConcat(a[1..], b, company);
    }
  }

  /** The report of a concatenation is the concatenation of the reports. */
  lemma ReportConcat(a: seq<Plastic>, b: seq<Plastic>, company: string)
    ensures Report(a + b, company) == Report(a, company) + Report(b, company)
  {
    OwnedConcat(a, b, company);
  }

  /** Appending one plastic extends the report of its company by its row, and
      leaves the report of every other company as it was. */
  lemma ReportAppend(ps: seq<Plastic>, p: Plastic, company: string)
    ensures Report(ps + [p], company) ==
            Report(ps, company) + (if p.company == company then [Project(p)] else [])
  {
    ReportConcat(ps, [p], company);
    assert Owned([p], company) == (if p.company == company then [p] else []) + Owned([], company);
  }

  /** A row is in the report exactly when some stored plastic of the company
      projects to it. */
  lemma ReportMembers(ps: seq<Plastic>, company: string, e: Entry)
    ensures e in Report(ps, company) <==>
            exists i :: 0 <= i < |ps| && ps[i].company == company && Project(ps[i]) == e
  {
  }

  /** After POST /api/recycle for (company, quantity) the report of that
      company ends with `{quantity, recycled: false}`; other reports keep. */
  lemma ReportAfterRecycle(d: Document, company: string, quantity: int, other: string)
    requires other != company
    ensures Report(WithPlastic(d, company, quantity).plastics, company) ==
            Report(d.plastics, company) + [Entry(quantity, false)]
    ensures Report(WithPlastic(d, company, quantity).plastics, other) == Report(d.plastics, other)
  {
    var p := Plastic(|d.plastics| + 1, company, quantity, false);
    assert WithPlastic(d, company, quantity).plastics == d.plastics + [p];
    ReportAppend(d.plastics, p, company);
    ReportAppend(d.plastics, p, other);
  }

  lemma ReportAfterPay(d: Document, amount: int, status: string, date: string, company: string)
    ensures Report(WithTransaction(d, amount, status, date).plastics, company) == Report(d.plastics, company)
  {
  }

  /** Two stored plastics, one of "Acme": the report of "Acme" is its one row. */
  lemma AcmeReport()
    ensures Report([Plastic(1, "Acme", 5, false), Plastic(2, "Other", 2, false)], "Acme") ==
            [Entry(5, false)]
  {
  }
}
