/** The daily comparison of local payments with the provider's bill. Amounts are exact decimals. */
module Bill {
  import opened Wrappers
  import opened Summation

  /** A payment as one side records it; the local trade number may be absent. */
  datatype Entry = Entry(paymentNo: string, amount: real, tradeNo: Option<string>)

  datatype Kind = MissingLocal | MissingProvider | AmountMismatch | TradeNoMismatch

  datatype Difference = Difference(
    paymentNo: string, kind: Kind, localAmount: Option<real>, providerAmount: Option<real>, tradeNo: Option<string>)

  /** Entries by payment number; the last of several entries with one number stays. */
  function ByNo(entries: seq<Entry>): map<string, Entry> {
    if |entries| == 0 then map[]
    else var last := entries[|entries| - 1]; ByNo(entries[..|entries| - 1])[last.paymentNo := last]
  }

  /** How a local entry differs from what the provider lists under its number. */
  function LocalVerdict(entry: Entry, provider: map<string, Entry>): Option<Difference> {
    if entry.paymentNo !in provider then
      Some(Difference(entry.paymentNo, MissingProvider, Some(entry.amount), None, None))
    else
      var remote := provider[entry.paymentNo];
      if entry.amount != remote.amount then
        Some(Difference(entry.paymentNo, AmountMismatch, Some(entry.amount), Some(remote.amount), remote.tradeNo))
      else if entry.tradeNo != remote.tradeNo then
        Some(Difference(entry.paymentNo, TradeNoMismatch, Some(entry.amount), Some(remote.amount), remote.tradeNo))
      else None
  }

  function ProviderVerdict(entry: Entry, local: map<string, Entry>): Option<Difference> {
    if entry.paymentNo !in local then
      Some(Difference(entry.paymentNo, MissingLocal, None, Some(entry.amount), entry.tradeNo))
    else None
  }

  /** The verdicts that are given, in order. */
  function Given(entries: seq<Entry>, verdict: Entry -> Option<Difference>): seq<Difference> {
    if |entries| == 0 then []
    else
      var n := |entries| - 1;
      Given(entries[..n], verdict) + match verdict(entries[n]) case Some(d) => [d] case None => []
  }

  function Against(provider: seq<Entry>): Entry -> Option<Difference> {
    (e: Entry) => LocalVerdict(e, ByNo(provider))
  }

  function Unknown(local: seq<Entry>): Entry -> Option<Difference> {
    (e: Entry) => ProviderVerdict(e, ByNo(local))
  }

  function Differences(local: seq<Entry>, provider: seq<Entry>): seq<Difference> {
    Given(local, Against(provider)) + Given(provider, Unknown(local))
  }

  method Compare(local: seq<Entry>, provider: seq<Entry>) returns (differences: seq<Difference>)
    ensures differences == Differences(local, provider)
  {
    var localByNo, providerByNo := ByNo(local), ByNo(provider);
    differences := [];
    for n := 0 to |local|
      invariant differences == Given(local[..n], Against(provider))
    {
      assert local[..n + 1][..n] == local[..n];
      var entry := local[n];
      if entry.paymentNo !in providerByNo {
        differences := differences + [Difference(entry.paymentNo, MissingProvider, Some(entry.amount), None, None)];
      } else {
        var remote := providerByNo[entry.paymentNo];
        if entry.amount != remote.amount {
          differences := differences + [
            Difference(entry.paymentNo, AmountMismatch, Some(entry.amount), Some(remote.amount), remote.tradeNo)];
        } else if entry.tradeNo != remote.tradeNo {
          differences := differences + [
            Difference(entry.paymentNo, TradeNoMismatch, Some(entry.amount), Some(remote.amount), remote.tradeNo)];
        }
      }
    }
    assert local[..|local|] == local;
    for n := 0 to |provider|
      invariant differences == Given(local, Against(provider)) + Given(provider[..n], Unknown(local))
    {
      assert provider[..n + 1][..n] == provider[..n];
      var entry := provider[n];
      if entry.paymentNo !in localByNo {
        differences := differences +
          [Difference(entry.paymentNo, MissingLocal, None, Some(entry.amount), entry.tradeNo)];
      }
    }
    assert provider[..|provider|] == provider;
  }

  // ------------------------------------------------------------------ the lists

  ghost predicate Distinct(entries: seq<Entry>) {
    forall i, j :: 0 <= i < j < |entries| ==> entries[i].paymentNo != entries[j].paymentNo
  }

  ghost predicate Lists(entries: seq<Entry>, no: string) {
    exists i :: 0 <= i < |entries| && entries[i].paymentNo == no
  }

  lemma {:induction false} ByNoKeys(entries: seq<Entry>)
    ensures forall no :: no in ByNo(entries) <==> Lists(entries, no)
    ensures forall no :: no in ByNo(entries) ==> ByNo(entries)[no] in entries && ByNo(entries)[no].paymentNo == no
  {
    if |entries| > 0 {
      var n := |entries| - 1;
      ByNoKeys(entries[..n]);
      forall no ensures no in ByNo(entries) <==> Lists(entries, no) {
        if no == entries[n].paymentNo {
          assert Lists(entries, no);
        } else if Lists(entries, no) {
          var i :| 0 <= i < |entries| && entries[i].paymentNo == no;
          assert entries[..n][i].paymentNo == no;
        } else {
          assert !Lists(entries[..n], no);
        }
      }
    }
  }

  lemma {:induction false} ByNoHolds(entries: seq<Entry>, e: Entry)
    requires Distinct(entries) && e in entries
    ensures e.paymentNo in ByNo(entries) && ByNo(entries)[e.paymentNo] == e
  {
    var n := |entries| - 1;
    if e != entries[n] {
      var i :| 0 <= i < |entries| && entries[i] == e;
      assert e == entries[..n][i];
      ByNoHolds(entries[..n], e);
    }
  }

  // ------------------------------------------------------- soundness, completeness

  lemma {:induction false} GivenHolds(entries: seq<Entry>, verdict: Entry -> Option<Difference>, d: Difference)
    ensures d in Given(entries, verdict) <==> exists e :: e in entries && verdict(e) == Some(d)
  {
    if |entries| > 0 {
      GivenHolds(entries[..|entries| - 1], verdict, d);
    }
  }

  lemma {:induction false} GivenNothing(entries: seq<Entry>, verdict: Entry -> Option<Difference>)
    ensures Given(entries, verdict) == [] <==> forall e :: e in entries ==> verdict(e).None?
  {
    if |entries| > 0 {
      GivenNothing(entries[..|entries| - 1], verdict);
    }
  }

  /** No differences exactly when every local entry equals the bill's last for its number and none is unknown. */
  lemma NoDifferencesIff(local: seq<Entry>, provider: seq<Entry>)
    ensures Differences(local, provider) == [] <==>
              && (forall e :: e in local ==> e.paymentNo in ByNo(provider) && ByNo(provider)[e.paymentNo] == e)
              && (forall e :: e in provider ==> Lists(local, e.paymentNo))
  {
    GivenNothing(local, Against(provider));
    GivenNothing(provider, Unknown(local));
    ByNoKeys(local);
    ByNoKeys(provider);
    forall e | e in local
      ensures Against(provider)(e).None? <==> e.paymentNo in ByNo(provider) && ByNo(provider)[e.paymentNo] == e
    {
    }
  }

  /** For lists without repeated numbers: no differences exactly when both sides are the same map. */
  lemma MatchedMeansEqual(local: seq<Entry>, provider: seq<Entry>)
    requires Distinct(local) && Distinct(provider)
    ensures Differences(local, provider) == [] <==> ByNo(local) == ByNo(provider)
  {
    NoDifferencesIff(local, provider);
    ByNoKeys(local);
    ByNoKeys(provider);
    forall e | e in local ensures e.paymentNo in ByNo(local) && ByNo(local)[e.paymentNo] == e {
      ByNoHolds(local, e);
    }
    if Differences(local, provider) == [] {
      forall no | no in ByNo(provider) ensures no in ByNo(local) {
        assert ByNo(provider)[no] in provider;
      }
      forall no | no in ByNo(local) ensures no in ByNo(provider) && ByNo(provider)[no] == ByNo(local)[no] {
        assert ByNo(local)[no] in local;
      }
    } else if ByNo(local) == ByNo(provider) {
      forall e | e in provider ensures Lists(local, e.paymentNo) {
        ByNoHolds(provider, e);
      }
    }
  }

  /** What should be said of one number, from what either side holds under it. */
  function Expected(local: map<string, Entry>, provider: map<string, Entry>, no: string): Option<Kind> {
    if no !in local then if no in provider then Some(MissingLocal) else None
    else if no !in provider then Some(MissingProvider)
    else if local[no].amount != provider[no].amount then Some(AmountMismatch)
    else if local[no].tradeNo != provider[no].tradeNo then Some(TradeNoMismatch)
    else None
  }

  /** Each number is reported with the kind that fits it. */
  lemma ReportsTheRightKind(local: seq<Entry>, provider: seq<Entry>, d: Difference)
    requires Distinct(local) && d in Differences(local, provider)
    ensures Expected(ByNo(local), ByNo(provider), d.paymentNo) == Some(d.kind)
  {
    hide Given;
    ByNoKeys(local);
    ByNoKeys(provider);
    GivenHolds(local, Against(provider), d);
    GivenHolds(provider, Unknown(local), d);
    if d in Given(local, Against(provider)) {
      var e :| e in local && Against(provider)(e) == Some(d);
      ByNoHolds(local, e);
    } else {
      var e :| e in provider && Unknown(local)(e) == Some(d);
      assert Lists(provider, e.paymentNo);
    }
  }

  /** A report quotes both sides as they are: each amount as listed there, and the provider's trade number. */
  lemma ReportsWhatEachSideLists(local: seq<Entry>, provider: seq<Entry>, d: Difference)
    requires Distinct(local) && Distinct(provider) && d in Differences(local, provider)
    ensures d.localAmount.Some? <==> Lists(local, d.paymentNo)
    ensures d.providerAmount.Some? <==> Lists(provider, d.paymentNo)
    ensures forall e | e in local && e.paymentNo == d.paymentNo :: d.localAmount == Some(e.amount)
    ensures forall e | e in provider && e.paymentNo == d.paymentNo ::
              d.providerAmount == Some(e.amount) && d.tradeNo == e.tradeNo
    ensures !Lists(provider, d.paymentNo) ==> d.tradeNo.None?
  {
    hide Given; hide Lists;
    ByNoKeys(local);
    ByNoKeys(provider);
    GivenHolds(local, Against(provider), d);
    GivenHolds(provider, Unknown(local), d);
    forall e | e in local ensures e.paymentNo in ByNo(local) && ByNo(local)[e.paymentNo] == e {
      ByNoHolds(local, e);
    }
    forall e | e in provider ensures e.paymentNo in ByNo(provider) && ByNo(provider)[e.paymentNo] == e {
      ByNoHolds(provider, e);
    }
  }

  /** Every number that should be reported is. */
  lemma ReportsAll(local: seq<Entry>, provider: seq<Entry>, no: string)
    requires Expected(ByNo(local), ByNo(provider), no).Some?
    ensures exists d :: d in Differences(local, provider) && d.paymentNo == no
  {
    hide Given;
    ByNoKeys(local);
    ByNoKeys(provider);
    if no in ByNo(local) {
      var d := Against(provider)(ByNo(local)[no]).value;
      GivenHolds(local, Against(provider), d);
      assert d in Differences(local, provider) && d.paymentNo == no;
    } else {
      var d := Unknown(local)(ByNo(provider)[no]).value;
      GivenHolds(provider, Unknown(local), d);
      assert d in Differences(local, provider) && d.paymentNo == no;
    }
  }

  ghost predicate Separate(ds: seq<Difference>) {
    forall i, j :: 0 <= i < j < |ds| ==> ds[i].paymentNo != ds[j].paymentNo
  }

  lemma SeparateConcat(a: seq<Difference>, b: seq<Difference>)
    requires Separate(a) && Separate(b)
    requires forall d, e | d in a && e in b :: d.paymentNo != e.paymentNo
    ensures Separate(a + b)
  {
    forall i, j | 0 <= i < j < |a + b| ensures (a + b)[i].paymentNo != (a + b)[j].paymentNo {
      if i < |a| <= j {
        assert (a + b)[i] in a && (a + b)[j] in b;
      }
    }
  }

  lemma {:induction false} GivenOnce(entries: seq<Entry>, verdict: Entry -> Option<Difference>)
    requires Distinct(entries)
    requires forall e :: e in entries && verdict(e).Some? ==> verdict(e).value.paymentNo == e.paymentNo
    ensures Separate(Given(entries, verdict))
    ensures forall d :: d in Given(entries, verdict) ==> Lists(entries, d.paymentNo)
  {
    if |entries| > 0 {
      var n := |entries| - 1;
      GivenOnce(entries[..n], verdict);
      forall no | Lists(entries[..n], no) ensures Lists(entries, no) && no != entries[n].paymentNo {
        var i :| 0 <= i < n && entries[..n][i].paymentNo == no;
        assert entries[i].paymentNo == no;
      }
      if verdict(entries[n]).Some? {
        SeparateConcat(Given(entries[..n], verdict), [verdict(entries[n]).value]);
        assert Lists(entries, entries[n].paymentNo);
      }
    }
  }

  /** No payment number is reported twice. */
  lemma ReportsOnce(local: seq<Entry>, provider: seq<Entry>)
    requires Distinct(local) && Distinct(provider)
    ensures Separate(Differences(local, provider))
  {
    GivenOnce(local, Against(provider));
    GivenOnce(provider, Unknown(local));
    ByNoKeys(local);
    forall d | d in Given(provider, Unknown(local)) ensures !Lists(local, d.paymentNo) {
      GivenHolds(provider, Unknown(local), d);
    }
    SeparateConcat(Given(local, Against(provider)), Given(provider, Unknown(local)));
  }

  // --------------------------------------------------------------------- counting

  function KindOf(kind: Kind): Difference -> int {
    (d: Difference) => if d.kind == kind then 1 else 0
  }

  function Count(ds: seq<Difference>, kind: Kind): int {
    Sum(ds, KindOf(kind))
  }

  function Numbers(entries: seq<Entry>): set<string> {
    set e | e in entries :: e.paymentNo
  }

  lemma CountGrows(entries: seq<Entry>, verdict: Entry -> Option<Difference>, kind: Kind)
    requires |entries| > 0
    ensures var n := |entries| - 1;
            Count(Given(entries, verdict), kind) == Count(Given(entries[..n], verdict), kind) +
            match verdict(entries[n]) case Some(d) => KindOf(kind)(d) case None => 0
  {
    var n := |entries| - 1;
    if verdict(entries[n]).Some? {
      Append(Given(entries[..n], verdict), verdict(entries[n]).value, KindOf(kind));
    } else {
      assert Given(entries, verdict) == Given(entries[..n], verdict);
    }
  }

  lemma SharedGrows(entries: seq<Entry>, known: set<string>)
    requires Distinct(entries) && |entries| > 0
    ensures var n := |entries| - 1;
            |Numbers(entries) * known| ==
            |Numbers(entries[..n]) * known| + if entries[n].paymentNo in known then 1 else 0
  {
    var n := |entries| - 1;
    var no := entries[n].paymentNo;
    assert entries == entries[..n] + [entries[n]];
    assert no !in Numbers(entries[..n]);
    assert Numbers(entries) == Numbers(entries[..n]) + {no};
    if no in known {
      assert Numbers(entries) * known == Numbers(entries[..n]) * known + {no};
    } else {
      assert Numbers(entries) * known == Numbers(entries[..n]) * known;
    }
  }

  /** Among distinct entries, those whose number is not in `known` are counted one by one. */
  lemma {:induction false} CountsTheMissing(
    entries: seq<Entry>, verdict: Entry -> Option<Difference>, known: set<string>, kind: Kind)
    requires Distinct(entries)
    requires forall e :: e in entries ==> (verdict(e).Some? && verdict(e).value.kind == kind <==> e.paymentNo !in known)
    ensures |entries| == Count(Given(entries, verdict), kind) + |Numbers(entries) * known|
  {
    hide Count; hide Given; hide Numbers;
    if |entries| > 0 {
      CountsTheMissing(entries[..|entries| - 1], verdict, known, kind);
      CountGrows(entries, verdict, kind);
      SharedGrows(entries, known);
      assert entries[|entries| - 1] in entries;
    } else {
      NothingListed(verdict, known, kind);
      assert entries == [];
    }
  }

  lemma NothingListed(verdict: Entry -> Option<Difference>, known: set<string>, kind: Kind)
    ensures Count(Given([], verdict), kind) == 0 && |Numbers([]) * known| == 0
  {
    assert Numbers([]) * known == {};
  }

  lemma {:induction false} CountsNone(entries: seq<Entry>, verdict: Entry -> Option<Difference>, kind: Kind)
    requires forall e :: e in entries && verdict(e).Some? ==> verdict(e).value.kind != kind
    ensures Count(Given(entries, verdict), kind) == 0
  {
    if |entries| > 0 {
      CountsNone(entries[..|entries| - 1], verdict, kind);
      CountGrows(entries, verdict, kind);
      assert entries[|entries| - 1] in entries;
    }
  }

  lemma ByNoNumbers(entries: seq<Entry>)
    ensures ByNo(entries).Keys == Numbers(entries)
  {
    ByNoKeys(entries);
    forall no ensures Lists(entries, no) <==> no in Numbers(entries) {
      if Lists(entries, no) {
        var i :| 0 <= i < |entries| && entries[i].paymentNo == no;
        assert entries[i] in entries;
      }
    }
  }

  /** Both sides agree on how many payments they share. */
  lemma SharedCountsAgree(local: seq<Entry>, provider: seq<Entry>)
    requires Distinct(local) && Distinct(provider)
    ensures |local| - Count(Differences(local, provider), MissingProvider) ==
            |provider| - Count(Differences(local, provider), MissingLocal)
  {
    hide Given; hide ByNo; hide Sum; hide Numbers; hide Distinct;
    ByNoNumbers(local);
    ByNoNumbers(provider);
    CountsTheMissing(local, Against(provider), Numbers(provider), MissingProvider);
    CountsTheMissing(provider, Unknown(local), Numbers(local), MissingLocal);
    CountsNone(local, Against(provider), MissingLocal);
    CountsNone(provider, Unknown(local), MissingProvider);
    Concat(Given(local, Against(provider)), Given(provider, Unknown(local)), KindOf(MissingProvider));
    Concat(Given(local, Against(provider)), Given(provider, Unknown(local)), KindOf(MissingLocal));
    assert Numbers(local) * Numbers(provider) == Numbers(provider) * Numbers(local);
  }

  /** A number the bill lists twice is compared by its last entry: any earlier one passes unseen. */
  lemma RepeatedNumbersHide(local: seq<Entry>, provider: seq<Entry>, hidden: Entry)
    requires Differences(local, provider) == [] && Lists(provider, hidden.paymentNo)
    ensures Differences(local, [hidden] + provider) == []
  {
    NoDifferencesIff(local, provider);
    NoDifferencesIff(local, [hidden] + provider);
    EarlierEntryYields(provider, hidden);
    var i :| 0 <= i < |provider| && provider[i].paymentNo == hidden.paymentNo;
    assert Lists(local, provider[i].paymentNo);
  }

  lemma {:induction false} EarlierEntryYields(entries: seq<Entry>, hidden: Entry)
    ensures forall no :: no in ByNo(entries) ==>
              no in ByNo([hidden] + entries) && ByNo([hidden] + entries)[no] == ByNo(entries)[no]
  {
    if |entries| > 0 {
      var n := |entries| - 1;
      EarlierEntryYields(entries[..n], hidden);
      assert ([hidden] + entries)[..n + 1] == [hidden] + entries[..n];
    }
  }
}
