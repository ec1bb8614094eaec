/** The table of boxes of p2/mbroker/data.c in memory, with its scans; the sections
    under the table lock are steps of the broker. */
module BoxTable {
  import opened Counting
  import opened TfsTypes
  import opened BrokerFs
  import opened BrokerSystem
  import opened BrokerFiles

  /** The boxes in taken slots, in the order of the table. */
  function TakenOnly(s: seq<Box>): seq<Box> {
    if s == [] then []
    else TakenOnly(s[..|s| - 1]) + if s[|s| - 1].taken == TAKEN then [s[|s| - 1]] else []
  }

  lemma {:induction false} CountLast<T>(s: seq<T>, x: T, p: T -> bool)
    ensures Count(s + [x], p) == Count(s, p) + Bit(p(x))
  {
    if s == [] {
      assert [x][1..] == [];
    } else {
      assert (s + [x])[1..] == s[1..] + [x];
      CountLast(s[1..], x, p);
    }
  }

  /** There are as many of them as the table has taken slots. */
  lemma {:induction false} TakenCount(s: seq<Box>)
    ensures |TakenOnly(s)| == Count(s, IsTaken())
  {
    if s != [] {
      var n := |s| - 1;
      TakenCount(s[..n]);
      CountLast(s[..n], s[n], IsTaken());
      assert s == s[..n] + [s[n]];
    }
  }

  lemma {:induction false} TakenPrefix(s: seq<Box>, i: nat)
    requires i <= |s|
    ensures TakenOnly(s[..i]) <= TakenOnly(s)
    decreases |s| - i
  {
    if i < |s| {
      TakenPrefix(s, i + 1);
      assert s[..i + 1][..i] == s[..i];
    } else {
      assert s[..i] == s;
    }
  }

  /** The box of a taken slot is in the list, behind those of the taken slots before it. */
  lemma TakenAt(s: seq<Box>, i: nat)
    requires i < |s| && s[i].taken == TAKEN
    ensures Count(s[..i], IsTaken()) < |TakenOnly(s)| && TakenOnly(s)[Count(s[..i], IsTaken())] == s[i]
  {
    TakenCount(s[..i]);
    assert s[..i + 1][..i] == s[..i];
    assert TakenOnly(s[..i + 1]) == TakenOnly(s[..i]) + [s[i]];
    TakenPrefix(s, i + 1);
  }

  /** As many boxes as there are taken slots, and the box of every taken slot at the place given
      by the number of taken slots before it. */
  ghost predicate Lists(s: seq<Box>, listed: seq<Box>) {
    && |listed| == Count(s, IsTaken())
    && forall i :: 0 <= i < |s| && s[i].taken == TAKEN ==>
         Count(s[..i], IsTaken()) < |listed| && listed[Count(s[..i], IsTaken())] == s[i]
  }

  lemma ListsTaken(s: seq<Box>)
    ensures Lists(s, TakenOnly(s))
  {
    TakenCount(s);
    forall i | 0 <= i < |s| && s[i].taken == TAKEN
      ensures Count(s[..i], IsTaken()) < |TakenOnly(s)| && TakenOnly(s)[Count(s[..i], IsTaken())] == s[i]
    {
      TakenAt(s, i);
    }
  }

  class BoxTable {
    const boxes: array<Box>
    var amount: nat

    ghost predicate Shows(s: Broker)
      reads this, boxes
    {
      boxes[..] == s.boxes && amount == s.amount
    }

    /** data_init. */
    constructor (limit: nat)
      ensures boxes.Length == limit && fresh(boxes)
      ensures forall ws: seq<Worker> :: (forall t :: 0 <= t < |ws| ==> ws[t].Idle?) ==>
                var s := Broker(boxes[..], NOBODY, 0, ws, Fs(map[], map[], map[]));
                Init(s) && Shows(s)
    {
      var slots := new Box[limit](_ => Box(FREE, [], 0, 0, 0, false, NOBODY, 0, [], false, false));
      boxes := slots;
      amount := 0;
      new;
      assert forall i :: 0 <= i < limit ==> EmptySlot(boxes[i]);
    }

    /** find_box: the first taken slot with this name, or -1. */
    method FindBox(name: Name) returns (r: int)
      ensures -1 <= r < boxes.Length
      ensures r == -1 ==> forall b :: 0 <= b < boxes.Length ==> !(boxes[b].taken == TAKEN && boxes[b].name == name)
      ensures r != -1 ==> boxes[r].taken == TAKEN && boxes[r].name == name
      ensures forall b :: 0 <= b < r ==> !(boxes[b].taken == TAKEN && boxes[b].name == name)
    {
      for i := 0 to boxes.Length
        invariant forall b :: 0 <= b < i ==> !(boxes[b].taken == TAKEN && boxes[b].name == name)
      {
        if boxes[i].taken == TAKEN && boxes[i].name == name { return i; }
      }
      return -1;
    }

    /** box_add_sub: a step of the broker, or there is no such box. */
    method AddSubscriber(name: Name, ghost s: Broker, ghost t: nat) returns (r: int, ghost s': Broker)
      requires Shows(s) && t < |s.workers| && s.workers[t].Idle? && s.table == NOBODY
      requires forall b: nat :: IsBox(s, b, name) ==> s.boxes[b].mutex == NOBODY
      modifies boxes
      ensures Shows(s')
      ensures r == -1 ==> s' == s && forall b: nat :: !IsBox(s, b, name)
      ensures r != -1 ==> 0 <= r && AddSub(s, t, r, name, s')
    {
      s' := s;
      r := FindBox(name);
      if r != -1 {
        boxes[r] := boxes[r].(nSubs := boxes[r].nSubs + 1);
        s' := s.(boxes := boxes[..], workers := s.workers[t := Sub(SOpen, r, FAILED, [], [])]);
      }
    }

    /** box_add_pub: a step of the broker, or there is no such box, or it has a publisher. */
    method AddPublisher(name: Name, ghost s: Broker, ghost t: nat) returns (r: int, ghost s': Broker)
      requires Shows(s) && t < |s.workers| && s.workers[t].Idle? && s.table == NOBODY
      requires forall b: nat :: IsBox(s, b, name) ==> s.boxes[b].mutex == NOBODY
      modifies boxes
      ensures Shows(s')
      ensures r == -1 ==> s' == s
      ensures r == -1 ==>
                (forall b: nat :: !IsBox(s, b, name)) || exists b: nat :: IsBox(s, b, name) && s.boxes[b].nPubs > 0
      ensures r != -1 ==> 0 <= r && AddPub(s, t, r, name, s')
    {
      s' := s;
      r := FindBox(name);
      if r != -1 {
        if boxes[r].nPubs > 0 {
          assert IsBox(s, r, name);
          return -1, s';
        }
        boxes[r] := boxes[r].(nPubs := boxes[r].nPubs + 1);
        s' := s.(boxes := boxes[..], workers := s.workers[t := Pub(POpen, r, FAILED, Hangup, [])]);
      }
    }

    /** box_create: -1 if there is such a box, -2 if no slot is free, and otherwise a
        step of the broker, which fails with -3 if the file cannot be opened. */
    method CreateBox(c: Config, name: Name, fs: Fs, newId: nat, room: bool, ghost s: Broker, ghost t: nat)
      returns (code: int, fs': Fs, ghost b: nat, ghost s': Broker)
      requires Shows(s) && t < |s.workers| && s.workers[t].Idle? && s.table == NOBODY && s.fs == fs
      requires newId !in fs.files
      requires forall b :: 0 <= b < |s.boxes| && s.boxes[b].taken == FREE ==> s.boxes[b].mutex == NOBODY
      modifies this`amount, boxes
      ensures Shows(s') && s'.fs == fs'
      ensures code == -1 <==> exists d: nat :: IsBox(s, d, name)
      ensures code == -2 ==> forall d :: 0 <= d < |s.boxes| ==> s.boxes[d].taken == TAKEN
      ensures code == -1 || code == -2 ==> s' == s
      ensures code == 0 || code == -3 ==> b <= |s.boxes| && forall d :: 0 <= d < b ==> s.boxes[d].taken == TAKEN
      ensures code == 0 || code == -3 ==> Create(c, s, t, b, name, newId, room, s')
      ensures code == 0 || code == -3 ==> (code == 0 <==> s'.boxes[b].taken == TAKEN)
      ensures code == 0 || code == -1 || code == -2 || code == -3
    {
      var slot := -1;
      fs', b, s' := fs, 0, s;
      for i := 0 to boxes.Length
        invariant forall d: nat :: d < i ==> !IsBox(s, d, name)
        invariant -1 <= slot < i
        invariant slot == -1 ==> forall d :: 0 <= d < i ==> boxes[d].taken == TAKEN
        invariant slot != -1 ==> boxes[slot].taken == FREE && forall d :: 0 <= d < slot ==> boxes[d].taken == TAKEN
      {
        if boxes[i].taken == TAKEN && boxes[i].name == name {
          assert IsBox(s, i, name);
          return -1, fs', b, s';
        }
        if slot < 0 && boxes[i].taken == FREE { slot := i; }
      }
      if slot < 0 { return -2, fs', b, s'; }
      b := slot;
      var (fs1, i) := MakeEmpty(fs, name, newId, room);
      boxes[slot] := NewBox(name, i).(taken := FREE);
      if i == FAILED {
        s' := s.(boxes := boxes[..]);
        return -3, fs', b, s';
      }
      fs' := fs1;
      var (fs2, h) := AddHandle(c, fs1, i, 0);
      if h == FAILED {
        s' := s.(boxes := boxes[..], fs := fs1);
        return -3, fs', b, s';
      }
      boxes[slot] := boxes[slot].(taken := TAKEN);
      amount := amount + 1;
      s' := s.(boxes := boxes[..], amount := s.amount + 1, fs := fs1);
      return 0, fs', b, s';
    }

    /** The first section of box_remove: a step of the broker, or there is no such box. */
    method StartRemoval(name: Name, ghost s: Broker, ghost t: nat) returns (r: int, ghost s': Broker)
      requires Shows(s) && t < |s.workers| && s.workers[t].Idle? && s.table == NOBODY
      ensures Shows(s')
      ensures r == -1 ==> s' == s && forall b :: 0 <= b < boxes.Length ==>
                            !(boxes[b].taken == TAKEN && boxes[b].name == name)
      ensures r != -1 ==> && 0 <= r < boxes.Length && boxes[r].taken == TAKEN && boxes[r].name == name
                          && StartRemove(s, t, r, name, s')
    {
      s' := s;
      r := FindBox(name);
      if r != -1 { s' := s.(table := t, workers := s.workers[t := Rem(RLock, r)]); }
    }

    /** The last section of box_remove, once no subscriber is left. */
    method FreeSlot(c: Config, i: nat, fs: Fs, ghost s: Broker, ghost t: nat)
      returns (fs': Fs, ghost e: Effect, ghost s': Broker)
      requires Shows(s) && s.fs == fs && t < |s.workers| && s.workers[t] == Rem(RSubTest, i) && i < |s.boxes|
      requires s.boxes[i].nSubs <= 0 && s.amount > 0
      modifies this`amount, boxes
      ensures MoveBy(c, s, t, e, s.workers[t := Idle], s') && Shows(s') && s'.fs == fs'
      ensures s'.boxes[i].taken == FREE
    {
      fs' := Unlink(fs, boxes[i].name);
      boxes[i] := boxes[i].(taken := FREE, mutex := NOBODY);
      amount := amount - 1;
      e := Effect(Idle, boxes[i], fs', None);
      s' := Applied(s, t, e, s.workers[t := Idle]);
    }

    /** box_get_all: copies of the taken boxes, each at the place given by the taken slots before
        its own. The copies fit the array that is made for them, and fill it, when box_amount is
        right. */
    method GetAll() returns (listed: array?<Box>, n: nat)
      requires amount == Count(boxes[..], IsTaken())
      ensures n == Count(boxes[..], IsTaken())
      ensures listed == null <==> n == 0
      ensures listed != null ==> fresh(listed) && listed.Length == n
      ensures Lists(boxes[..], if listed == null then [] else listed[..])
    {
      TakenCount(boxes[..]);
      n := amount;
      ListsTaken(boxes[..]);
      if n == 0 {
        assert TakenOnly(boxes[..]) == [];
        return null, n;
      }
      hide Lists;
      var copies := new Box[n];
      var count := 0;
      for i := 0 to boxes.Length
        invariant count == |TakenOnly(boxes[..i])| <= n
        invariant copies[..count] == TakenOnly(boxes[..i])
      {
        assert boxes[..i + 1][..i] == boxes[..i];
        TakenPrefix(boxes[..], i + 1);
        assert boxes[..][..i + 1] == boxes[..i + 1];
        if boxes[i].taken == TAKEN {
          copies[count] := boxes[i];
          count := count + 1;
        }
      }
      assert boxes[..boxes.Length] == boxes[..];
      assert count == n && copies[..] == TakenOnly(boxes[..]);
      listed := copies;
    }
  }
}
