/** The log of finished orders: what a record keeps of an order, eviction, and the orders still to be paid. */
module OrderLog {
  import opened Lists
  import opened Numbering

  const MAX_ITEM := 100

  const REMOVE_OLD := 10

  const SEGMENTS := 5

  const STORED_SEGMENTS := 4

  datatype ErrorCode = ErrNo | ErrOther | ErrFileParse

  datatype Segment = Segment(energy: real, energyFee: real, servFee: real, time: nat)

  /** The fields of OrderData_t that a record holds. */
  datatype Bill = Bill(
    startType: Byte, sn: nat, con: Byte, card: string, startEnergy: real, totalEnergy: real, energyFee: real,
    servFee: real, segs: seq<Segment>, tStart: nat, tStop: nat, stopType: Byte, pay: Byte)

  /** One object of the order array; a start type that cannot be read makes the record unreadable. */
  datatype Record = Record(
    startType: Option<Byte>, sn: nat, remote: Byte, card: string, startEnergy: real, stopEnergy: real, energyFee: real,
    servFee: real, segs: seq<Segment>, tStart: nat, totalTime: int, tStop: nat, stopType: Byte, pay: Byte)

  // ----- one record ----------------------------------------------------------

  /** CreateNewOrderCfg. */
  function Create(b: Bill, total: Byte): Record
    requires |b.segs| == SEGMENTS
  {
    Record(Some(b.startType), b.sn, ToRemote(b.con, total), b.card, b.startEnergy, b.startEnergy + b.totalEnergy,
           b.energyFee, b.servFee, b.segs[..STORED_SEGMENTS], b.tStart, b.tStop - b.tStart, b.tStop, b.stopType, b.pay)
  }

  predicate Readable(r: Record) { r.startType.Some? && |r.segs| == STORED_SEGMENTS }

  /** GetOrderData into an order that held was: the default segment is not among the fields it writes. */
  function Read(r: Record, was: Bill): Bill
    requires |was.segs| == SEGMENTS && |r.segs| == STORED_SEGMENTS
  {
    Bill(if r.startType.Some? then r.startType.value else was.startType, r.sn, FromRemote(r.remote), r.card,
         r.startEnergy, r.stopEnergy - r.startEnergy, r.energyFee, r.servFee, r.segs + [was.segs[STORED_SEGMENTS]],
         r.tStart, r.tStop, r.stopType, r.pay)
  }

  /** The order holds what the record says, in all the fields a record has. */
  predicate HeldBy(b: Bill, r: Record) {
    |b.segs| == SEGMENTS && |r.segs| == STORED_SEGMENTS && b == Read(r, b)
  }

  /** A record holds the fields of the order it is made from, for the energy also the meter at the stop and for the
      times also the time between them. An order read back from its record is the order that was logged, but for the
      default segment; its connector comes back iff the station has several and the number is not the last of the
      eight bits, or has one and it is number 0. */
  lemma ReadBack(b: Bill, total: Byte, was: Bill)
    requires |b.segs| == |was.segs| == SEGMENTS
    ensures var r := Create(b, total);
            && Readable(r)
            && (r.startType, r.sn, r.card, r.pay) == (Some(b.startType), b.sn, b.card, b.pay)
            && r.remote == (if total <= 1 || b.con == 255 then 0 else b.con + 1)
            && (r.tStart, r.tStop, r.stopType) == (b.tStart, b.tStop, b.stopType)
            && (r.energyFee, r.servFee, r.segs) == (b.energyFee, b.servFee, b.segs[..4])
            && r.startEnergy == b.startEnergy && r.stopEnergy == b.startEnergy + b.totalEnergy
            && r.tStart + r.totalTime == b.tStop
            && Read(r, was).(con := b.con) == b.(segs := b.segs[SEGMENTS - 1 := was.segs[SEGMENTS - 1]])
            && (Read(r, was).con == b.con <==> if total > 1 then b.con < 255 else b.con == 0)
  {
    var n := SEGMENTS - 1;
    assert b.segs[n := was.segs[n]] == b.segs[..n] + [was.segs[n]];
  }

  // ----- eviction ------------------------------------------------------------

  /** cJSON_DeleteItemFromArray; an index past the end deletes nothing. */
  function DeleteItem(s: seq<Record>, i: nat): seq<Record> {
    if i < |s| then s[..i] + s[i + 1..] else s
  }

  /** The first n rounds of the deleting loop, which counts up while the array shrinks under it. */
  function Evict(s: seq<Record>, n: nat): seq<Record> {
    if n == 0 then s else DeleteItem(Evict(s, n - 1), n - 1)
  }

  function Add(s: seq<Record>, r: Record): seq<Record> {
    (if |s| > MAX_ITEM then Evict(s, REMOVE_OLD) else s) + [r]
  }

  /** Where the order at position k after n rounds stood before. */
  function Was(n: nat, k: nat): nat { if k < n then 2 * k + 1 else k + n }

  lemma {:induction false} EvictAt(s: seq<Record>, n: nat)
    requires 2 * n <= |s|
    ensures |Evict(s, n)| == |s| - n
    ensures forall k: nat :: k < |s| - n ==> Evict(s, n)[k] == s[Was(n, k)]
  {
    if n > 0 {
      EvictAt(s, n - 1);
      var t := Evict(s, n - 1);
      forall k: nat | k < |s| - n ensures Evict(s, n)[k] == s[Was(n, k)] {}
    }
  }

  /** The positions an overflow keeps. */
  function Kept(size: nat): (at: seq<nat>)
    requires size > MAX_ITEM
  {
    seq(size - REMOVE_OLD, k requires k >= 0 => Was(REMOVE_OLD, k))
  }

  /** An overflow removes exactly the ten orders at positions 0, 2, .., 18, so not the ten oldest; the others keep their
      order and the new one comes last. Without an overflow nothing is removed. */
  lemma OverflowRemovesEveryOther(s: seq<Record>, r: Record)
    ensures |s| <= MAX_ITEM ==> Add(s, r) == s + [r]
    ensures |s| > MAX_ITEM ==> exists front :: Add(s, r) == front + [r] && Picks(s, Kept(|s|), front)
    ensures |s| > MAX_ITEM ==>
              forall p: nat :: p < |s| ==> (p !in Kept(|s|) <==> p % 2 == 0 && p <= 18)
  {
    if |s| > MAX_ITEM {
      EvictAt(s, REMOVE_OLD);
      var at := Kept(|s|);
      assert Picks(s, at, Evict(s, REMOVE_OLD));
      forall p: nat | p < |s| ensures p !in at <==> p % 2 == 0 && p <= 18 {
        if p >= 20 { assert at[p - REMOVE_OLD] == p; }
        else if p % 2 == 1 { assert at[p / 2] == p; }
      }
    }
  }

  function AddAll(s: seq<Record>, rs: seq<Record>): seq<Record>
    decreases |rs|
  {
    if rs == [] then s else AddAll(Add(s, rs[0]), rs[1..])
  }

  /** From at most 101 orders the log never holds more than 101. */
  lemma {:induction false} LogBounded(s: seq<Record>, rs: seq<Record>)
    requires |s| <= MAX_ITEM + 1
    ensures |AddAll(s, rs)| <= MAX_ITEM + 1
    decreases |rs|
  {
    if rs != [] {
      if |s| > MAX_ITEM { EvictAt(s, REMOVE_OLD); }
      LogBounded(Add(s, rs[0]), rs[1..]);
    }
  }

  /** How many further orders the one at position p of n outlasts for certain: those that fill the log, and ten for
      each overflow that finds it beyond position 18. */
  function Outlasts(p: nat, n: nat): nat
    requires p < n <= MAX_ITEM + 1
  {
    MAX_ITEM + 1 - n + if p <= 18 then 0 else 10 * ((p - 9) / 10)
  }

  lemma {:induction false} StaysWhile(s: seq<Record>, p: nat, rs: seq<Record>)
    requires p < |s| <= MAX_ITEM + 1 && |rs| <= Outlasts(p, |s|)
    ensures s[p] in AddAll(s, rs)
    decreases |rs|
  {
    if rs != [] {
      hide Outlasts;
      if |s| <= MAX_ITEM {
        StaysWhile(Add(s, rs[0]), p, rs[1..]);
      } else {
        EvictAt(s, REMOVE_OLD);
        var t := Add(s, rs[0]);
        assert t[p - REMOVE_OLD] == s[Was(REMOVE_OLD, p - REMOVE_OLD)];
        StaysWhile(t, p - REMOVE_OLD, rs[1..]);
      }
    }
  }

  /** Every order logged stays for the next 82 orders. */
  lemma StaysForNext82(s: seq<Record>, r: Record, rs: seq<Record>)
    requires |s| <= MAX_ITEM + 1 && |rs| <= 82
    ensures r in AddAll(Add(s, r), rs)
  {
    if |s| > MAX_ITEM { EvictAt(s, REMOVE_OLD); }
    var t := Add(s, r);
    assert t[|t| - 1] == r;
    StaysWhile(t, |t| - 1, rs);
  }

  lemma {:induction false} Fills(s: seq<Record>, rs: seq<Record>)
    requires |s| + |rs| <= MAX_ITEM + 1
    ensures AddAll(s, rs) == s + rs
    decreases |rs|
  {
    if rs != [] {
      Fills(s + [rs[0]], rs[1..]);
      assert s + [rs[0]] + rs[1..] == s + rs;
    }
  }

  /** The bound is exact: the 19th order of a log is gone with the 83rd after it. */
  lemma GoneAfter83(s: seq<Record>, r: Record, rs: seq<Record>, last: Record)
    requires |s| == 18 && |rs| == 82 && r !in s && r !in rs && last != r
    ensures r !in Add(AddAll(Add(s, r), rs), last)
  {
    Fills(s + [r], rs);
    var t := s + [r] + rs;
    EvictAt(t, REMOVE_OLD);
  }

  // ----- orders still to be paid ---------------------------------------------

  /** Where GetOrderByPayStatus stops: the first record from i on that is unreadable or has the status. */
  function StopsAt(a: seq<Record>, status: Byte, i: nat): (k: nat)
    requires i <= |a|
    ensures i <= k <= |a| && (k < |a| ==> !Readable(a[k]) || a[k].pay == status)
    ensures forall j :: i <= j < k ==> Readable(a[j]) && a[j].pay != status
    decreases |a| - i
  {
    if i == |a| || !Readable(a[i]) || a[i].pay == status then i else StopsAt(a, status, i + 1)
  }

  /** Where SetOrderPaid stops: the first record from i on that is unreadable, or has the number and is not paid. */
  function PaysAt(a: seq<Record>, sn: nat, i: nat): (k: nat)
    requires i <= |a|
    ensures i <= k <= |a| && (k < |a| ==> !Readable(a[k]) || (a[k].sn == sn && a[k].pay != 1))
    ensures forall j :: i <= j < k ==> Readable(a[j]) && (a[j].sn != sn || a[j].pay == 1)
    decreases |a| - i
  {
    if i == |a| || !Readable(a[i]) || (a[i].sn == sn && a[i].pay != 1) then i else PaysAt(a, sn, i + 1)
  }

  function Marked(a: seq<Record>, i: nat): seq<Record>
    requires i < |a|
  {
    a[i := a[i].(pay := 1)]
  }

  function SetPaid(a: seq<Record>, sn: nat): seq<Record> {
    var k := PaysAt(a, sn, 0);
    if k < |a| && Readable(a[k]) then Marked(a, k) else a
  }

  /** One round of the upload of unpaid orders: find one, and mark its number paid. */
  function Round(a: seq<Record>): seq<Record> {
    var i := StopsAt(a, 0, 0);
    if i < |a| then SetPaid(a, a[i].sn) else a
  }

  function Rounds(a: seq<Record>, k: nat): (r: seq<Record>)
    ensures |r| == |a|
    decreases k
  {
    if k == 0 then a else Rounds(Round(a), k - 1)
  }

  /** A round marks the very record it found, and nothing else, if and only if that record is readable and no earlier
      one of the same number has a status other than unpaid and paid. */
  lemma RoundMarksFound(a: seq<Record>, i: nat)
    requires i == StopsAt(a, 0, 0) < |a|
    ensures a[i].pay != 1 && Round(a) == Marked(a, i) <==>
              Readable(a[i]) && forall j :: 0 <= j < i && a[j].sn == a[i].sn ==> a[j].pay == 1
  {
    var k := PaysAt(a, a[i].sn, 0);
    if k < i {
      assert Round(a)[i] == a[i];
    } else if !Readable(a[i]) {
      assert k == i && Round(a) == a;
    }
  }

  /** Readable records, each unpaid or paid. */
  predicate Clean(a: seq<Record>) {
    forall i :: 0 <= i < |a| ==> Readable(a[i]) && (a[i].pay == 0 || a[i].pay == 1)
  }

  function Unpaid(a: seq<Record>): nat {
    if a == [] then 0 else (if a[0].pay == 0 then 1 else 0) + Unpaid(a[1..])
  }

  /** The first k unpaid records, in the order of the array, marked paid. */
  function PayFirst(a: seq<Record>, k: nat): (r: seq<Record>)
    ensures |r| == |a|
  {
    if a == [] || k == 0 then a
    else if a[0].pay == 0 then [a[0].(pay := 1)] + PayFirst(a[1..], k - 1)
    else [a[0]] + PayFirst(a[1..], k)
  }

  lemma {:induction false} NoneUnpaid(a: seq<Record>)
    ensures Unpaid(a) == 0 <==> forall j :: 0 <= j < |a| ==> a[j].pay != 0
  {
    if a != [] {
      NoneUnpaid(a[1..]);
      assert forall j :: 0 < j < |a| ==> a[j] == a[1..][j - 1];
    }
  }

  lemma {:induction false} NothingToPay(a: seq<Record>, k: nat)
    requires Unpaid(a) == 0 || k == 0
    ensures PayFirst(a, k) == a
  {
    if a != [] && k > 0 { NothingToPay(a[1..], k); }
  }

  lemma {:induction false} MarkedFirst(a: seq<Record>, i: nat, k: nat)
    requires i < |a| && a[i].pay == 0 && forall j :: 0 <= j < i ==> a[j].pay != 0
    ensures Unpaid(Marked(a, i)) == Unpaid(a) - 1
    ensures PayFirst(Marked(a, i), k) == PayFirst(a, k + 1)
  {
    if i == 0 {
      assert Marked(a, 0)[1..] == a[1..];
    } else {
      MarkedFirst(a[1..], i - 1, k);
      assert Marked(a, i)[1..] == Marked(a[1..], i - 1);
    }
    NothingToPay(a[1..], 0);
    NothingToPay(Marked(a, i), 0);
  }

  /** In a clean log a round pays the first unpaid order, or finds none. */
  lemma RoundPaysFirst(a: seq<Record>, k: nat)
    requires Clean(a)
    ensures StopsAt(a, 0, 0) == |a| <==> Unpaid(a) == 0
    ensures Unpaid(a) > 0 ==> Unpaid(Round(a)) == Unpaid(a) - 1 && PayFirst(Round(a), k) == PayFirst(a, k + 1)
    ensures Unpaid(a) == 0 ==> Round(a) == a
    ensures Clean(Round(a))
  {
    hide Unpaid, PayFirst;
    var i := StopsAt(a, 0, 0);
    NoneUnpaid(a);
    if i < |a| {
      RoundMarksFound(a, i);
      hide Round;
      MarkedFirst(a, i, k);
    }
  }

  /** The upload ends: after k rounds on a clean log exactly the first k unpaid orders are paid, in the order of the
      array and whatever numbers repeat, and the next search fails iff k has reached the number of unpaid orders. */
  lemma {:induction false} UploadDrains(a: seq<Record>, k: nat)
    requires Clean(a)
    ensures Rounds(a, k) == PayFirst(a, k)
    ensures StopsAt(Rounds(a, k), 0, 0) == |a| <==> k >= Unpaid(a)
    decreases k
  {
    hide StopsAt, Round, PayFirst, Unpaid, Clean;
    if k == 0 {
      RoundPaysFirst(a, 0);
      NothingToPay(a, 0);
    } else {
      RoundPaysFirst(a, k - 1);
      UploadDrains(Round(a), k - 1);
      if Unpaid(a) == 0 {
        NothingToPay(a, k - 1);
        NothingToPay(a, k);
      }
    }
  }

  /** An unreadable record stops the upload: once a search stops at it and its number stands nowhere before it on a
      record neither unpaid nor paid, every round finds it again and changes nothing. */
  lemma {:induction false} UnreadableStalls(a: seq<Record>, k: nat)
    requires StopsAt(a, 0, 0) < |a| && !Readable(a[StopsAt(a, 0, 0)])
    requires var i := StopsAt(a, 0, 0); forall j :: 0 <= j < i && a[j].sn == a[i].sn ==> a[j].pay == 1
    ensures Rounds(a, k) == a
  {
    if k > 0 {
      var i := StopsAt(a, 0, 0);
      var m := PaysAt(a, a[i].sn, 0);
      assert m == i;
      UnreadableStalls(a, k - 1);
    }
  }

  predicate AllReadable(a: seq<Record>) { forall i :: 0 <= i < |a| ==> Readable(a[i]) }

  /** The records a round may still mark. */
  function NotPaid(a: seq<Record>): nat {
    if a == [] then 0 else (if a[0].pay != 1 then 1 else 0) + NotPaid(a[1..])
  }

  lemma {:induction false} MarkedFewer(a: seq<Record>, i: nat)
    requires i < |a| && a[i].pay != 1
    ensures NotPaid(Marked(a, i)) == NotPaid(a) - 1
  {
    if i == 0 {
      assert Marked(a, 0)[1..] == a[1..];
    } else {
      MarkedFewer(a[1..], i - 1);
      assert Marked(a, i)[1..] == Marked(a[1..], i - 1);
    }
  }

  /** A round makes no record readable or unreadable; where all are readable and one is unpaid it marks one. */
  lemma RoundMarksOne(a: seq<Record>)
    ensures AllReadable(Round(a)) <==> AllReadable(a)
    ensures AllReadable(a) && StopsAt(a, 0, 0) < |a| ==> NotPaid(Round(a)) == NotPaid(a) - 1
    ensures StopsAt(a, 0, 0) == |a| ==> Round(a) == a
  {
    var i := StopsAt(a, 0, 0);
    if i < |a| {
      var k := PaysAt(a, a[i].sn, 0);
      if k < |a| && Readable(a[k]) {
        MarkedFewer(a, k);
        assert forall j :: 0 <= j < |a| ==> Readable(Marked(a, k)[j]) == Readable(a[j]);
      }
    }
  }

  lemma {:induction false} RoundsStay(a: seq<Record>, k: nat)
    requires Round(a) == a
    ensures Rounds(a, k) == a
  {
    if k > 0 { RoundsStay(a, k - 1); }
  }

  lemma {:induction false} ReadableEnds(a: seq<Record>, k: nat)
    requires AllReadable(a) && k >= NotPaid(a)
    ensures StopsAt(Rounds(a, k), 0, 0) == |a|
    decreases k
  {
    hide Round, NotPaid, AllReadable;
    RoundMarksOne(a);
    if StopsAt(a, 0, 0) == |a| { RoundsStay(a, k); }
    else { ReadableEnds(Round(a), k - 1); }
  }

  lemma {:induction false} UnreadableNeverEnds(a: seq<Record>, k: nat)
    requires !AllReadable(a)
    ensures StopsAt(Rounds(a, k), 0, 0) < |a|
    decreases k
  {
    hide Round;
    RoundMarksOne(a);
    if k > 0 { UnreadableNeverEnds(Round(a), k - 1); }
  }

  /** The upload of any log ends if and only if every record can be read, and then within as many rounds as there are
      records not marked paid. */
  lemma UploadEnds(a: seq<Record>)
    ensures (exists k: nat :: StopsAt(Rounds(a, k), 0, 0) == |a|) <==> forall i :: 0 <= i < |a| ==> Readable(a[i])
    ensures AllReadable(a) ==> forall k: nat :: k >= NotPaid(a) ==> StopsAt(Rounds(a, k), 0, 0) == |a|
  {
    hide StopsAt, Rounds, Readable;
    if AllReadable(a) {
      forall k: nat | k >= NotPaid(a) ensures StopsAt(Rounds(a, k), 0, 0) == |a| { ReadableEnds(a, k); }
      assert StopsAt(Rounds(a, NotPaid(a)), 0, 0) == |a|;
    } else {
      forall k: nat ensures StopsAt(Rounds(a, k), 0, 0) < |a| { UnreadableNeverEnds(a, k); }
    }
  }

  // ----- replies that do not come --------------------------------------------

  /** What the attempts to upload leave: one to which the platform gave no verdict on the order changes nothing, and the
      next attempt sends the same order. */
  function Attempts(a: seq<Record>, settled: seq<bool>): (r: seq<Record>)
    ensures |r| == |a|
    decreases |settled|
  {
    if settled == [] then a else Attempts(if settled[0] then Round(a) else a, settled[1..])
  }

  function Settled(settled: seq<bool>): nat {
    if settled == [] then 0 else (if settled[0] then 1 else 0) + Settled(settled[1..])
  }

  /** Only the verdicts count: attempts come to as many rounds as there are verdicts among them. */
  lemma {:induction false} AttemptsAreRounds(a: seq<Record>, settled: seq<bool>)
    ensures Attempts(a, settled) == Rounds(a, Settled(settled))
    decreases |settled|
  {
    hide Round;
    if settled != [] { AttemptsAreRounds(if settled[0] then Round(a) else a, settled[1..]); }
  }

  /** So on a clean log k verdicts, whatever attempts fail between them, pay exactly the first k unpaid orders, and the
      search fails iff there were as many verdicts as unpaid orders; on a log of readable records it fails once there
      were as many as records not marked paid. */
  lemma UploadSettles(a: seq<Record>, settled: seq<bool>)
    ensures Clean(a) ==> Attempts(a, settled) == PayFirst(a, Settled(settled))
    ensures Clean(a) ==> (StopsAt(Attempts(a, settled), 0, 0) == |a| <==> Settled(settled) >= Unpaid(a))
    ensures AllReadable(a) && Settled(settled) >= NotPaid(a) ==> StopsAt(Attempts(a, settled), 0, 0) == |a|
  {
    hide StopsAt, Round, Rounds, PayFirst, Unpaid, Clean, AllReadable, NotPaid;
    AttemptsAreRounds(a, settled);
    if Clean(a) { UploadDrains(a, Settled(settled)); }
    if AllReadable(a) && Settled(settled) >= NotPaid(a) { ReadableEnds(a, Settled(settled)); }
  }

  // ----- the array, updated in place -----------------------------------------

  class OrderArray {
    var orders: seq<Record>

    constructor ()
      ensures orders == []
    {
      orders := [];
    }

    method DeleteItemFromArray(i: nat)
      modifies this
      ensures orders == DeleteItem(old(orders), i)
    {
      if i < |orders| { orders := orders[..i] + orders[i + 1..]; }
    }

    /** AddOrderCfg. */
    method AddOrderCfg(b: Bill, total: Byte)
      requires |b.segs| == SEGMENTS
      modifies this
      ensures orders == Add(old(orders), Create(b, total))
    {
      var size := |orders|;
      if size > MAX_ITEM {
        var i := 0;
        while i < REMOVE_OLD
          invariant 0 <= i <= REMOVE_OLD && orders == Evict(old(orders), i)
        {
          DeleteItemFromArray(i);
          i := i + 1;
        }
      }
      orders := orders + [Create(b, total)];
    }

    /** GetOrderByPayStatus: the order holds the last record looked at; what it held before stays when there is none. */
    method GetOrderByPayStatus(status: Byte, was: Bill) returns (err: ErrorCode, order: Bill)
      requires |was.segs| == SEGMENTS && forall i :: 0 <= i < |orders| ==> |orders[i].segs| == STORED_SEGMENTS
      ensures var k := StopsAt(orders, status, 0);
              err == (if k < |orders| then ErrNo else ErrOther) &&
              if orders == [] then order == was else HeldBy(order, orders[if k < |orders| then k else |orders| - 1])
    {
      order := was;
      var i := 0;
      var stopped := false;
      while i < |orders| && !stopped
        invariant 0 <= i <= |orders| && |order.segs| == SEGMENTS
        invariant StopsAt(orders, status, 0) == if stopped then i else StopsAt(orders, status, i)
        invariant stopped ==> i < |orders| && HeldBy(order, orders[i])
        invariant !stopped ==> if i == 0 then order == was else HeldBy(order, orders[i - 1])
        decreases |orders| - i, !stopped
      {
        order := Read(orders[i], order);
        if orders[i].startType.None? || order.pay == status { stopped := true; } else { i := i + 1; }
      }
      err := if i < |orders| then ErrNo else ErrOther;
    }

    /** SetOrderPaid; on an empty array the source returns a variable it never set. */
    method SetOrderPaid(sn: nat) returns (err: ErrorCode)
      requires forall i :: 0 <= i < |orders| ==> |orders[i].segs| == STORED_SEGMENTS
      modifies this
      ensures orders == SetPaid(old(orders), sn)
      ensures old(orders) != [] ==>
                var k := PaysAt(old(orders), sn, 0);
                err == if k < |orders| && !Readable(old(orders)[k]) then ErrFileParse else ErrNo
    {
      err := *;
      var i := 0;
      while i < |orders|
        invariant 0 <= i <= |orders| && orders == old(orders)
        invariant PaysAt(orders, sn, 0) == PaysAt(orders, sn, i)
        invariant i > 0 ==> err == ErrNo
      {
        if orders[i].startType.None? {
          err := ErrFileParse;
          break;
        }
        err := ErrNo;
        if orders[i].sn == sn && orders[i].pay != 1 {
          orders := Marked(orders, i);
          break;
        }
        i := i + 1;
      }
    }
  }
}
