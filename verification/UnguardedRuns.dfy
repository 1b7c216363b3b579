/** Runs in which `new_ref_unguarded` goes wrong, and one in which it does not. */
module UnguardedRuns {
  import opened Wrappers
  import opened SharedPointers
  import opened UnguardedPointers

  lemma SameState(a: State, b: State)
    requires a.objs.Keys == b.objs.Keys
    requires forall o :: o in a.objs ==> a.objs[o].count == b.objs[o].count && a.objs[o].holders == b.objs[o].holders
    requires a.cells.Keys == b.cells.Keys
    requires forall l :: l in a.cells ==> a.cells[l].pointer == b.cells[l].pointer && a.cells[l].readers == b.cells[l].readers
    requires forall l :: l in a.cells ==> a.cells[l].writer == b.cells[l].writer
    requires a.handles == b.handles && a.raws == b.raws && a.threads == b.threads && a.destroyed == b.destroyed
    ensures a == b
  {
    assert forall o :: o in a.objs ==> a.objs[o] == b.objs[o];
    assert forall l :: l in a.cells ==> a.cells[l] == b.cells[l];
    assert a.objs == b.objs && a.cells == b.cells;
  }

  // ---- up to the first read: a cell with object 0, to which handle 0 refers as well, and object 1

  const StartActs: seq<Action> :=
    [Make(0, 0), NewRaw(0, 0), MakeCell(0, Some(0)), Make(1, 1), GiveUp(1, 1), TestUnguarded(1, 0)]

  function StartState(k: nat): State {
    if k == 0 then Init
    else if k == 1 then
      State(map[0 := Obj(1, {Handle(0)})], map[0 := Some(0)], map[], map[], map[], [])
    else if k == 2 then
      State(map[0 := Obj(2, {Handle(0), Raw(0)})], map[0 := Some(0)], map[0 := 0], map[], map[], [])
    else if k == 3 then
      State(map[0 := Obj(2, {Handle(0), Locked(0)})], map[0 := Some(0)], map[],
            map[0 := Cell(Some(0), {}, None)], map[], [])
    else if k == 4 then
      State(map[0 := Obj(2, {Handle(0), Locked(0)}), 1 := Obj(1, {Handle(1)})], map[0 := Some(0), 1 := Some(1)], map[],
            map[0 := Cell(Some(0), {}, None)], map[], [])
    else if k == 5 then
      State(map[0 := Obj(2, {Handle(0), Locked(0)}), 1 := Obj(1, {Raw(1)})], map[0 := Some(0), 1 := None], map[1 := 1],
            map[0 := Cell(Some(0), {}, None)], map[], [])
    else
      State(map[0 := Obj(2, {Handle(0), Locked(0)}), 1 := Obj(1, {Raw(1)})], map[0 := Some(0), 1 := None], map[1 := 1],
            map[0 := Cell(Some(0), {}, None)], map[1 := ToIncrement(0)], [])
  }

  lemma Start0()
    ensures var s := StartState(0); DoMake(s, 0, 0) == StartState(1)
  {
    var s := StartState(0);
    SameState(DoMake(s, 0, 0), StartState(1));
  }

  lemma Start1()
    ensures var s := StartState(1); PointerOf(s, 0).Some? && DoNewRaw(s, 0, 0) == StartState(2)
  {
    var s := StartState(1);
    SameState(DoNewRaw(s, 0, 0), StartState(2));
  }

  lemma Start2()
    ensures var s := StartState(2); 0 in s.raws && DoMakeCell(s, 0, Some(0)) == StartState(3)
  {
    var s := StartState(2);
    SameState(DoMakeCell(s, 0, Some(0)), StartState(3));
  }

  lemma Start3()
    ensures var s := StartState(3); DoMake(s, 1, 1) == StartState(4)
  {
    var s := StartState(3);
    SameState(DoMake(s, 1, 1), StartState(4));
  }

  lemma Start4()
    ensures var s := StartState(4); PointerOf(s, 1).Some? && DoGiveUp(s, 1, 1) == StartState(5)
  {
    var s := StartState(4);
    SameState(DoGiveUp(s, 1, 1), StartState(5));
  }

  lemma Start5()
    ensures var s := StartState(5); 0 in s.cells && DoTest(s, 1, 0) == StartState(6)
  {
    var s := StartState(5);
    SameState(DoTest(s, 1, 0), StartState(6));
  }

  lemma StartEnabled(k: nat)
    requires 0 <= k < 6
    ensures Enabled(StartState(k), StartActs[k])
  {
  }

  lemma StartGoesOn(k: nat)
    requires 0 <= k < 6
    ensures Enabled(StartState(k), StartActs[k]) && Step(StartState(k), StartActs[k]) == StartState(k + 1)
  {
    StartEnabled(k);
    hide Enabled, PcOf, PointerOf, StartState, DoMake, DoCopy, DoMove, DoReset, DoNewRaw, DoGiveUp, DoAdopt, DoResetRaw,
          DoDestroy, DoMakeCell, DoDropCell, DoLockShared, DoLoad, DoAcquire, DoUnlock, DoLockAlone, DoSwap,
          DoReleaseInReset, DoSetNull, DoTest, DoIncrement, DoReturn;
    if k >= 3 {
      StartGoesOn3(k);
    } else {
      match k {
        case 0 => Start0();
        case 1 => Start1();
        case 2 => Start2();
      }
    }
  }

  lemma StartGoesOn3(k: nat)
    requires 3 <= k < 6
    ensures Enabled(StartState(k), StartActs[k]) && Step(StartState(k), StartActs[k]) == StartState(k + 1)
  {
    StartEnabled(k);
    hide Enabled, PcOf, PointerOf, StartState, DoMake, DoCopy, DoMove, DoReset, DoNewRaw, DoGiveUp, DoAdopt, DoResetRaw,
          DoDestroy, DoMakeCell, DoDropCell, DoLockShared, DoLoad, DoAcquire, DoUnlock, DoLockAlone, DoSwap,
          DoReleaseInReset, DoSetNull, DoTest, DoIncrement, DoReturn;
    match k {
      case 3 => Start3();
      case 4 => Start4();
      case 5 => Start5();
    }
  }

  // ---- another thread swaps the pointer between the increment and the return

  const SwappedActs: seq<Action> := StartActs +
    [IncrementUnguarded(1), LockAlone(2, 0), Swap(2, Some(1), 2), ReturnUnguarded(1, 3), Reset(1, 3), Destroy(1)]

  function SwappedState(k: nat): State {
    if k <= 6 then StartState(k)
    else if k == 7 then
      State(map[0 := Obj(3, {Handle(0), Locked(0), InFlight(1)}), 1 := Obj(1, {Raw(1)})], map[0 := Some(0), 1 := None],
            map[1 := 1], map[0 := Cell(Some(0), {}, None)], map[1 := ToReturn(0, Some(0))], [])
    else if k == 8 then
      State(map[0 := Obj(3, {Handle(0), Locked(0), InFlight(1)}), 1 := Obj(1, {Raw(1)})], map[0 := Some(0), 1 := None],
            map[1 := 1], map[0 := Cell(Some(0), {}, Some(2))], map[1 := ToReturn(0, Some(0)), 2 := Writing(0)], [])
    else if k == 9 then
      State(map[0 := Obj(3, {Handle(0), InFlight(1), Handle(2)}), 1 := Obj(1, {Locked(0)})], map[0 := Some(0), 1 := None, 2 := Some(0)],
            map[], map[0 := Cell(Some(1), {}, None)], map[1 := ToReturn(0, Some(0)), 2 := Idle], [])
    else if k == 10 then
      State(map[0 := Obj(3, {Handle(0), Handle(2), Handle(3)}), 1 := Obj(1, {Locked(0)})], map[0 := Some(0), 1 := None, 2 := Some(0), 3 := Some(1)],
            map[], map[0 := Cell(Some(1), {}, None)], map[1 := Idle, 2 := Idle], [])
    else if k == 11 then
      State(map[0 := Obj(3, {Handle(0), Handle(2), Handle(3)}), 1 := Obj(0, {Locked(0)})], map[0 := Some(0), 1 := None, 2 := Some(0), 3 := None],
            map[], map[0 := Cell(Some(1), {}, None)], map[1 := Destroying(1), 2 := Idle], [])
    else
      State(map[0 := Obj(3, {Handle(0), Handle(2), Handle(3)}), 1 := Obj(0, {Locked(0)})], map[0 := Some(0), 1 := None, 2 := Some(0), 3 := None],
            map[], map[0 := Cell(Some(1), {}, None)], map[1 := Idle, 2 := Idle], [1])
  }

  lemma Swapped6()
    ensures var s := SwappedState(6); 0 in s.cells && DoIncrement(s, 1, 0) == SwappedState(7)
  {
    var s := SwappedState(6);
    SameState(DoIncrement(s, 1, 0), SwappedState(7));
  }

  lemma Swapped7()
    ensures var s := SwappedState(7); 0 in s.cells && DoLockAlone(s, 2, 0) == SwappedState(8)
  {
    var s := SwappedState(7);
    SameState(DoLockAlone(s, 2, 0), SwappedState(8));
  }

  /** In the middle of the swap. */
  function SwappedHalfway(): State {
      State(map[0 := Obj(3, {Handle(0), InFlight(1), Handle(2)}), 1 := Obj(1, {Raw(1)})], map[0 := Some(0), 1 := None, 2 := Some(0)],
            map[1 := 1], map[0 := Cell(None, {}, Some(2))], map[1 := ToReturn(0, Some(0)), 2 := Writing(0)], [])
  }

  lemma SwappedEmpties()
    ensures 0 in SwappedState(8).cells && Emptied(SwappedState(8), 0, 2) == SwappedHalfway()
  {
    SameState(Emptied(SwappedState(8), 0, 2), SwappedHalfway());
  }

  lemma SwappedRefills()
    ensures 0 in SwappedHalfway().cells && 1 in SwappedHalfway().raws && Refilled(SwappedHalfway(), 2, 0, Some(1)) == SwappedState(9)
  {
    SameState(Refilled(SwappedHalfway(), 2, 0, Some(1)), SwappedState(9));
  }

  lemma Swapped8()
    ensures var s := SwappedState(8); 0 in s.cells && 1 in s.raws && DoSwap(s, 2, 0, Some(1), 2) == SwappedState(9)
  {
    SwappedEmpties();
    SwappedRefills();
    hide Emptied, Refilled;
  }

  lemma Swapped9()
    ensures var s := SwappedState(9); 0 in s.cells && PcOf(s, 1).ToReturn? && DoReturn(s, 1, 0, 3) == SwappedState(10)
  {
    var s := SwappedState(9);
    SameState(DoReturn(s, 1, 0, 3), SwappedState(10));
  }

  lemma Swapped10()
    ensures var s := SwappedState(10); DoReset(s, 1, 3) == SwappedState(11)
  {
    var s := SwappedState(10);
    SameState(DoReset(s, 1, 3), SwappedState(11));
  }

  lemma Swapped11()
    ensures var s := SwappedState(11); DestroyedBy(s, 1).Some? && DoDestroy(s, 1) == SwappedState(12)
  {
    var s := SwappedState(11);
    SameState(DoDestroy(s, 1), SwappedState(12));
  }

  lemma SwappedEnabled(k: nat)
    requires 6 <= k < 12
    ensures Enabled(SwappedState(k), SwappedActs[k])
    ensures k == 6 ==> PcOf(SwappedState(k), 1).l == 0
    ensures k == 8 ==> PcOf(SwappedState(k), 2).l == 0
    ensures k == 9 ==> PcOf(SwappedState(k), 1).l == 0
  {
  }

  lemma SwappedGoesOn(k: nat)
    requires 6 <= k < 12
    ensures Enabled(SwappedState(k), SwappedActs[k]) && Step(SwappedState(k), SwappedActs[k]) == SwappedState(k + 1)
  {
    SwappedEnabled(k);
    hide Enabled, PcOf, PointerOf, SwappedState, DoMake, DoCopy, DoMove, DoReset, DoNewRaw, DoGiveUp, DoAdopt, DoResetRaw,
          DoDestroy, DoMakeCell, DoDropCell, DoLockShared, DoLoad, DoAcquire, DoUnlock, DoLockAlone, DoSwap,
          DoReleaseInReset, DoSetNull, DoTest, DoIncrement, DoReturn;
    if k >= 9 {
      SwappedGoesOn9(k);
    } else {
      match k {
        case 6 => Swapped6();
        case 7 => Swapped7();
        case 8 => Swapped8();
      }
    }
  }

  lemma SwappedGoesOn9(k: nat)
    requires 9 <= k < 12
    ensures Enabled(SwappedState(k), SwappedActs[k]) && Step(SwappedState(k), SwappedActs[k]) == SwappedState(k + 1)
  {
    SwappedEnabled(k);
    hide Enabled, PcOf, PointerOf, SwappedState, DoMake, DoCopy, DoMove, DoReset, DoNewRaw, DoGiveUp, DoAdopt, DoResetRaw,
          DoDestroy, DoMakeCell, DoDropCell, DoLockShared, DoLoad, DoAcquire, DoUnlock, DoLockAlone, DoSwap,
          DoReleaseInReset, DoSetNull, DoTest, DoIncrement, DoReturn;
    match k {
      case 9 => Swapped9();
      case 10 => Swapped10();
      case 11 => Swapped11();
    }
  }

  lemma SwappedIsRun() returns (run: seq<State>)
    ensures IsRun(run, SwappedActs) && |run| == 13 && forall k: nat :: k <= 12 ==> run[k] == SwappedState(k)
  {
    run := seq(13, k requires k >= 0 => SwappedState(k));
    SwappedBegins();
    assert |SwappedActs| == 12;
    hide SwappedState, StartState, Enabled, Step;
    forall i | 0 <= i < 12 ensures Enabled(run[i], SwappedActs[i]) && run[i + 1] == Step(run[i], SwappedActs[i]) {
      if i < 6 {
        StartGoesOn(i);
      } else {
        SwappedGoesOn(i);
      }
    }
  }

  lemma SwappedBegins()
    ensures SwappedState(0) == Init && forall k: nat :: k <= 6 ==> SwappedState(k) == StartState(k)
    ensures forall k: nat :: k < 6 ==> SwappedActs[k] == StartActs[k]
  {
  }

  // ---- another thread swaps the pointer between the test and the increment

  const ChangedActs: seq<Action> := StartActs +
    [LockAlone(2, 0), Swap(2, Some(1), 2), IncrementUnguarded(1), ReturnUnguarded(1, 3)]

  function ChangedState(k: nat): State {
    if k <= 6 then StartState(k)
    else if k == 7 then
      State(map[0 := Obj(2, {Handle(0), Locked(0)}), 1 := Obj(1, {Raw(1)})], map[0 := Some(0), 1 := None], map[1 := 1],
            map[0 := Cell(Some(0), {}, Some(2))], map[1 := ToIncrement(0), 2 := Writing(0)], [])
    else if k == 8 then
      State(map[0 := Obj(2, {Handle(0), Handle(2)}), 1 := Obj(1, {Locked(0)})], map[0 := Some(0), 1 := None, 2 := Some(0)],
            map[], map[0 := Cell(Some(1), {}, None)], map[1 := ToIncrement(0), 2 := Idle], [])
    else if k == 9 then
      State(map[0 := Obj(2, {Handle(0), Handle(2)}), 1 := Obj(2, {Locked(0), InFlight(1)})], map[0 := Some(0), 1 := None, 2 := Some(0)],
            map[], map[0 := Cell(Some(1), {}, None)], map[1 := ToReturn(0, Some(1)), 2 := Idle], [])
    else
      State(map[0 := Obj(2, {Handle(0), Handle(2)}), 1 := Obj(2, {Locked(0), Handle(3)})], map[0 := Some(0), 1 := None, 2 := Some(0), 3 := Some(1)],
            map[], map[0 := Cell(Some(1), {}, None)], map[1 := Idle, 2 := Idle], [])
  }

  lemma Changed6()
    ensures var s := ChangedState(6); 0 in s.cells && DoLockAlone(s, 2, 0) == ChangedState(7)
  {
    var s := ChangedState(6);
    SameState(DoLockAlone(s, 2, 0), ChangedState(7));
  }

  /** In the middle of the swap. */
  function ChangedHalfway(): State {
      State(map[0 := Obj(2, {Handle(0), Handle(2)}), 1 := Obj(1, {Raw(1)})], map[0 := Some(0), 1 := None, 2 := Some(0)],
            map[1 := 1], map[0 := Cell(None, {}, Some(2))], map[1 := ToIncrement(0), 2 := Writing(0)], [])
  }

  lemma ChangedEmpties()
    ensures 0 in ChangedState(7).cells && Emptied(ChangedState(7), 0, 2) == ChangedHalfway()
  {
    SameState(Emptied(ChangedState(7), 0, 2), ChangedHalfway());
  }

  lemma ChangedRefills()
    ensures 0 in ChangedHalfway().cells && 1 in ChangedHalfway().raws && Refilled(ChangedHalfway(), 2, 0, Some(1)) == ChangedState(8)
  {
    SameState(Refilled(ChangedHalfway(), 2, 0, Some(1)), ChangedState(8));
  }

  lemma Changed7()
    ensures var s := ChangedState(7); 0 in s.cells && 1 in s.raws && DoSwap(s, 2, 0, Some(1), 2) == ChangedState(8)
  {
    ChangedEmpties();
    ChangedRefills();
    hide Emptied, Refilled;
  }

  lemma Changed8()
    ensures var s := ChangedState(8); 0 in s.cells && DoIncrement(s, 1, 0) == ChangedState(9)
  {
    var s := ChangedState(8);
    SameState(DoIncrement(s, 1, 0), ChangedState(9));
  }

  lemma Changed9()
    ensures var s := ChangedState(9); 0 in s.cells && PcOf(s, 1).ToReturn? && DoReturn(s, 1, 0, 3) == ChangedState(10)
  {
    var s := ChangedState(9);
    SameState(DoReturn(s, 1, 0, 3), ChangedState(10));
  }

  lemma ChangedEnabled(k: nat)
    requires 6 <= k < 10
    ensures Enabled(ChangedState(k), ChangedActs[k])
    ensures k == 7 ==> PcOf(ChangedState(k), 2).l == 0
    ensures k == 8 ==> PcOf(ChangedState(k), 1).l == 0
    ensures k == 9 ==> PcOf(ChangedState(k), 1).l == 0
  {
  }

  lemma ChangedGoesOn(k: nat)
    requires 6 <= k < 10
    ensures Enabled(ChangedState(k), ChangedActs[k]) && Step(ChangedState(k), ChangedActs[k]) == ChangedState(k + 1)
  {
    ChangedEnabled(k);
    hide Enabled, PcOf, PointerOf, ChangedState, DoMake, DoCopy, DoMove, DoReset, DoNewRaw, DoGiveUp, DoAdopt, DoResetRaw,
          DoDestroy, DoMakeCell, DoDropCell, DoLockShared, DoLoad, DoAcquire, DoUnlock, DoLockAlone, DoSwap,
          DoReleaseInReset, DoSetNull, DoTest, DoIncrement, DoReturn;
    if k >= 9 {
      ChangedGoesOn9(k);
    } else {
      match k {
        case 6 => Changed6();
        case 7 => Changed7();
        case 8 => Changed8();
      }
    }
  }

  lemma ChangedGoesOn9(k: nat)
    requires 9 <= k < 10
    ensures Enabled(ChangedState(k), ChangedActs[k]) && Step(ChangedState(k), ChangedActs[k]) == ChangedState(k + 1)
  {
    ChangedEnabled(k);
    hide Enabled, PcOf, PointerOf, ChangedState, DoMake, DoCopy, DoMove, DoReset, DoNewRaw, DoGiveUp, DoAdopt, DoResetRaw,
          DoDestroy, DoMakeCell, DoDropCell, DoLockShared, DoLoad, DoAcquire, DoUnlock, DoLockAlone, DoSwap,
          DoReleaseInReset, DoSetNull, DoTest, DoIncrement, DoReturn;
    match k {
      case 9 => Changed9();
    }
  }

  lemma ChangedIsRun() returns (run: seq<State>)
    ensures IsRun(run, ChangedActs) && |run| == 11 && forall k: nat :: k <= 10 ==> run[k] == ChangedState(k)
  {
    run := seq(11, k requires k >= 0 => ChangedState(k));
    ChangedBegins();
    assert |ChangedActs| == 10;
    hide ChangedState, StartState, Enabled, Step;
    forall i | 0 <= i < 10 ensures Enabled(run[i], ChangedActs[i]) && run[i + 1] == Step(run[i], ChangedActs[i]) {
      if i < 6 {
        StartGoesOn(i);
      } else {
        ChangedGoesOn(i);
      }
    }
  }

  lemma ChangedBegins()
    ensures ChangedState(0) == Init && forall k: nat :: k <= 6 ==> ChangedState(k) == StartState(k)
    ensures forall k: nat :: k < 6 ==> ChangedActs[k] == StartActs[k]
  {
  }

  // ---- another thread releases the pointer between the test and the increment

  const EmptiedActs: seq<Action> := ChangedActs[..7] +
    [Swap(2, None, 2), IncrementUnguarded(1)]

  function EmptiedState(k: nat): State {
    if k <= 7 then ChangedState(k)
    else if k == 8 then
      State(map[0 := Obj(2, {Handle(0), Handle(2)}), 1 := Obj(1, {Raw(1)})], map[0 := Some(0), 1 := None, 2 := Some(0)],
            map[1 := 1], map[0 := Cell(None, {}, None)], map[1 := ToIncrement(0), 2 := Idle], [])
    else
      State(map[0 := Obj(2, {Handle(0), Handle(2)}), 1 := Obj(1, {Raw(1)})], map[0 := Some(0), 1 := None, 2 := Some(0)],
            map[1 := 1], map[0 := Cell(None, {}, None)], map[1 := Faulted, 2 := Idle], [])
  }

  lemma EmptiedRefills()
    ensures 0 in ChangedHalfway().cells && Refilled(ChangedHalfway(), 2, 0, None) == EmptiedState(8)
  {
    SameState(Refilled(ChangedHalfway(), 2, 0, None), EmptiedState(8));
  }

  lemma Emptied7()
    ensures var s := EmptiedState(7); 0 in s.cells && DoSwap(s, 2, 0, None, 2) == EmptiedState(8)
  {
    ChangedEmpties();
    EmptiedRefills();
    hide Emptied, Refilled;
  }

  lemma Emptied8()
    ensures var s := EmptiedState(8); 0 in s.cells && DoIncrement(s, 1, 0) == EmptiedState(9)
  {
    var s := EmptiedState(8);
    SameState(DoIncrement(s, 1, 0), EmptiedState(9));
  }

  lemma EmptiedEnabled(k: nat)
    requires 7 <= k < 9
    ensures Enabled(EmptiedState(k), EmptiedActs[k])
    ensures k == 7 ==> PcOf(EmptiedState(k), 2).l == 0
    ensures k == 8 ==> PcOf(EmptiedState(k), 1).l == 0
  {
  }

  lemma EmptiedGoesOn(k: nat)
    requires 7 <= k < 9
    ensures Enabled(EmptiedState(k), EmptiedActs[k]) && Step(EmptiedState(k), EmptiedActs[k]) == EmptiedState(k + 1)
  {
    EmptiedEnabled(k);
    hide Enabled, PcOf, PointerOf, EmptiedState, DoMake, DoCopy, DoMove, DoReset, DoNewRaw, DoGiveUp, DoAdopt, DoResetRaw,
          DoDestroy, DoMakeCell, DoDropCell, DoLockShared, DoLoad, DoAcquire, DoUnlock, DoLockAlone, DoSwap,
          DoReleaseInReset, DoSetNull, DoTest, DoIncrement, DoReturn;
    match k {
      case 7 => Emptied7();
      case 8 => Emptied8();
    }
  }

  lemma EmptiedIsRun() returns (run: seq<State>)
    ensures IsRun(run, EmptiedActs) && |run| == 10 && forall k: nat :: k <= 9 ==> run[k] == EmptiedState(k)
  {
    run := seq(10, k requires k >= 0 => EmptiedState(k));
    EmptiedBegins();
    assert |EmptiedActs| == 9;
    hide EmptiedState, ChangedState, StartState, Enabled, Step;
    forall i | 0 <= i < 9 ensures Enabled(run[i], EmptiedActs[i]) && run[i + 1] == Step(run[i], EmptiedActs[i]) {
      if i < 6 {
        StartGoesOn(i);
      } else if i < 7 {
        ChangedGoesOn(i);
      } else {
        EmptiedGoesOn(i);
      }
    }
  }

  lemma EmptiedBegins()
    ensures EmptiedState(0) == Init && forall k: nat :: k <= 6 ==> EmptiedState(k) == StartState(k)
    ensures forall k: nat :: k < 6 ==> EmptiedActs[k] == StartActs[k]
    ensures forall k: nat :: k <= 7 ==> EmptiedState(k) == ChangedState(k)
    ensures forall k: nat :: k < 7 ==> EmptiedActs[k] == ChangedActs[k]
  {
  }

  // ---- other threads let go of the object and reset the cell between the test and the increment

  const RaceActs: seq<Action> := StartActs +
    [Reset(2, 0), LockAlone(2, 0), ReleaseInReset(2), Destroy(2), IncrementUnguarded(1)]

  function RaceState(k: nat): State {
    if k <= 6 then StartState(k)
    else if k == 7 then
      State(map[0 := Obj(1, {Locked(0)}), 1 := Obj(1, {Raw(1)})], map[0 := None, 1 := None], map[1 := 1],
            map[0 := Cell(Some(0), {}, None)], map[1 := ToIncrement(0), 2 := Idle], [])
    else if k == 8 then
      State(map[0 := Obj(1, {Locked(0)}), 1 := Obj(1, {Raw(1)})], map[0 := None, 1 := None], map[1 := 1],
            map[0 := Cell(Some(0), {}, Some(2))], map[1 := ToIncrement(0), 2 := Writing(0)], [])
    else if k == 9 then
      State(map[0 := Obj(0, {}), 1 := Obj(1, {Raw(1)})], map[0 := None, 1 := None], map[1 := 1],
            map[0 := Cell(Some(0), {}, Some(2))], map[1 := ToIncrement(0), 2 := DestroyingInReset(0, 0)], [])
    else if k == 10 then
      State(map[0 := Obj(0, {}), 1 := Obj(1, {Raw(1)})], map[0 := None, 1 := None], map[1 := 1],
            map[0 := Cell(Some(0), {}, Some(2))], map[1 := ToIncrement(0), 2 := Nulling(0)], [0])
    else
      State(map[0 := Obj(1, {InFlight(1)}), 1 := Obj(1, {Raw(1)})], map[0 := None, 1 := None], map[1 := 1],
            map[0 := Cell(Some(0), {}, Some(2))], map[1 := ToReturn(0, Some(0)), 2 := Nulling(0)], [0])
  }

  lemma Race6()
    ensures var s := RaceState(6); DoReset(s, 2, 0) == RaceState(7)
  {
    var s := RaceState(6);
    SameState(DoReset(s, 2, 0), RaceState(7));
  }

  lemma Race7()
    ensures var s := RaceState(7); 0 in s.cells && DoLockAlone(s, 2, 0) == RaceState(8)
  {
    var s := RaceState(7);
    SameState(DoLockAlone(s, 2, 0), RaceState(8));
  }

  lemma Race8()
    ensures var s := RaceState(8); 0 in s.cells && DoReleaseInReset(s, 2, 0) == RaceState(9)
  {
    var s := RaceState(8);
    SameState(DoReleaseInReset(s, 2, 0), RaceState(9));
  }

  lemma Race9()
    ensures var s := RaceState(9); DestroyedBy(s, 2).Some? && DoDestroy(s, 2) == RaceState(10)
  {
    var s := RaceState(9);
    SameState(DoDestroy(s, 2), RaceState(10));
  }

  lemma Race10()
    ensures var s := RaceState(10); 0 in s.cells && DoIncrement(s, 1, 0) == RaceState(11)
  {
    var s := RaceState(10);
    SameState(DoIncrement(s, 1, 0), RaceState(11));
  }

  lemma RaceEnabled(k: nat)
    requires 6 <= k < 11
    ensures Enabled(RaceState(k), RaceActs[k])
    ensures k == 8 ==> PcOf(RaceState(k), 2).l == 0
    ensures k == 10 ==> PcOf(RaceState(k), 1).l == 0
  {
  }

  lemma RaceGoesOn(k: nat)
    requires 6 <= k < 11
    ensures Enabled(RaceState(k), RaceActs[k]) && Step(RaceState(k), RaceActs[k]) == RaceState(k + 1)
  {
    RaceEnabled(k);
    hide Enabled, PcOf, PointerOf, RaceState, DoMake, DoCopy, DoMove, DoReset, DoNewRaw, DoGiveUp, DoAdopt, DoResetRaw,
          DoDestroy, DoMakeCell, DoDropCell, DoLockShared, DoLoad, DoAcquire, DoUnlock, DoLockAlone, DoSwap,
          DoReleaseInReset, DoSetNull, DoTest, DoIncrement, DoReturn;
    if k >= 9 {
      RaceGoesOn9(k);
    } else {
      match k {
        case 6 => Race6();
        case 7 => Race7();
        case 8 => Race8();
      }
    }
  }

  lemma RaceGoesOn9(k: nat)
    requires 9 <= k < 11
    ensures Enabled(RaceState(k), RaceActs[k]) && Step(RaceState(k), RaceActs[k]) == RaceState(k + 1)
  {
    RaceEnabled(k);
    hide Enabled, PcOf, PointerOf, RaceState, DoMake, DoCopy, DoMove, DoReset, DoNewRaw, DoGiveUp, DoAdopt, DoResetRaw,
          DoDestroy, DoMakeCell, DoDropCell, DoLockShared, DoLoad, DoAcquire, DoUnlock, DoLockAlone, DoSwap,
          DoReleaseInReset, DoSetNull, DoTest, DoIncrement, DoReturn;
    match k {
      case 9 => Race9();
      case 10 => Race10();
    }
  }

  lemma RaceIsRun() returns (run: seq<State>)
    ensures IsRun(run, RaceActs) && |run| == 12 && forall k: nat :: k <= 11 ==> run[k] == RaceState(k)
  {
    run := seq(12, k requires k >= 0 => RaceState(k));
    RaceBegins();
    assert |RaceActs| == 11;
    hide RaceState, StartState, Enabled, Step;
    forall i | 0 <= i < 11 ensures Enabled(run[i], RaceActs[i]) && run[i + 1] == Step(run[i], RaceActs[i]) {
      if i < 6 {
        StartGoesOn(i);
      } else {
        RaceGoesOn(i);
      }
    }
  }

  lemma RaceBegins()
    ensures RaceState(0) == Init && forall k: nat :: k <= 6 ==> RaceState(k) == StartState(k)
    ensures forall k: nat :: k < 6 ==> RaceActs[k] == StartActs[k]
  {
  }

  // ---- what the runs show

  /** Step `k` of the run adds a reference to the object `o`, which was destroyed before. */
  ghost predicate Revived(run: seq<State>, acts: seq<Action>, k: nat, o: Oid) {
    && IsRun(run, acts) && k < |acts| && Adds(run[k], acts[k]) == Some(o) && Dead(run[k], o) && o in run[k].destroyed
    && o in run[k + 1].objs && run[k + 1].objs[o].count > 0
  }

  /** `new_ref_unguarded` can add a reference to a destroyed object: after its test the other references go, and a
      `reset` destroys the object before the pointer becomes null. */
  lemma UnguardedRevives()
    ensures exists run, acts, k, o :: Revived(run, acts, k, o)
  {
    var run := RaceIsRun();
    RaceEnds();
    hide RaceState, IsRun, Adds, Dead;
    assert Revived(run, RaceActs, 10, 0);
  }

  lemma RaceEnds()
    ensures |RaceActs| == 11 && RaceState(10).destroyed == [0] && 0 in RaceState(11).objs && RaceState(11).objs[0].count == 1
    ensures Dead(RaceState(10), 0) && Adds(RaceState(10), RaceActs[10]) == Some(0)
  {
  }

  /** In a call of `new_ref_unguarded`, with handle `held` on the object throughout, all other operations are safe, and
      yet the state does not stay sound; and in the end an object is destroyed to which a cell refers. */
  ghost predicate BreaksThoughHeld(
    run: seq<State>, acts: seq<Action>, i: nat, j: nat, k: nat, t: Tid, l: nat, h: nat, held: nat)
  {
    && Call(run, acts, i, j, k, t, l, h) && OthersSafe(run, acts, j, k) && HeldFrom(run, i, k, l, held)
    && !SoundUpTo(run, k + 1) && exists o :: o in run[|acts|].destroyed && Target(run[|acts|], Locked(l)) == Some(o)
  }

  /** A shared pointer to the object is not enough: `swap_ref` between the increment and the return makes the call
      return an object that it has not counted, and the end of that reference destroys it under the cell. */
  lemma HeldHandleIsNotEnough()
    ensures exists run, acts, i, j, k, t, l, h, held :: BreaksThoughHeld(run, acts, i, j, k, t, l, h, held)
  {
    var run := SwappedIsRun();
    SwappedReads();
    SwappedActions();
    SwappedEnds();
    hide SwappedState, IsRun;
    PlainActsAreSafe(run, SwappedActs, 6, 9);
    UnguardedSoundIff(run, SwappedActs, 5, 6, 9, 1, 0, 3);
    assert 1 in run[12].destroyed;
    assert BreaksThoughHeld(run, SwappedActs, 5, 6, 9, 1, 0, 3, 0);
  }

  lemma SwappedReads()
    ensures forall k: nat :: 5 <= k <= 9 ==> PointerOf(SwappedState(k), 0) == Some(0) && 0 in SwappedState(k).cells
    ensures SwappedState(5).cells[0].pointer == SwappedState(6).cells[0].pointer == Some(0) && SwappedState(9).cells[0].pointer == Some(1)
  {
  }

  lemma SwappedActions()
    ensures |SwappedActs| == 12 && SwappedActs[5] == TestUnguarded(1, 0) && SwappedActs[6] == IncrementUnguarded(1)
    ensures SwappedActs[9] == ReturnUnguarded(1, 3)
    ensures forall m: nat :: m < 9 && m != 6 ==> !SwappedActs[m].IncrementUnguarded? && !SwappedActs[m].ReturnUnguarded?
  {
  }

  lemma SwappedEnds()
    ensures SwappedState(12).destroyed == [1] && Target(SwappedState(12), Locked(0)) == Some(1)
  {
  }

  /** Only unguarded increments and returns can be unsafe. */
  lemma PlainActsAreSafe(run: seq<State>, acts: seq<Action>, j: nat, k: nat)
    requires IsRun(run, acts) && k < |acts|
    requires forall m: nat :: m < k && m != j ==> !acts[m].IncrementUnguarded? && !acts[m].ReturnUnguarded?
    ensures OthersSafe(run, acts, j, k)
  {
    hide Step, Enabled, Referenced;
  }

  /** `release` between the test and the increment makes the call increment through a null pointer. */
  lemma ReleaseFaults()
    ensures exists run, acts, t: Tid :: IsRun(run, acts) && PcOf(run[|acts|], t).Faulted?
  {
    var run := EmptiedIsRun();
    assert |EmptiedActs| == 9 && PcOf(EmptiedState(9), 1).Faulted?;
    hide EmptiedState, IsRun;
    assert IsRun(run, EmptiedActs) && PcOf(run[|EmptiedActs|], 1).Faulted?;
  }

  /** The first read of the call finds another object than the second, and yet the state stays sound. */
  ghost predicate SoundThoughChanged(run: seq<State>, acts: seq<Action>, i: nat, j: nat, k: nat, t: Tid, l: nat, h: nat) {
    && Call(run, acts, i, j, k, t, l, h) && OthersSafe(run, acts, j, k)
    && ReadAt(run, i, l) != ReadAt(run, j, l) && SoundUpTo(run, k + 1)
  }

  /** The first read need not find the object that is returned. */
  lemma FirstReadMayDiffer()
    ensures exists run, acts, i, j, k, t, l, h :: SoundThoughChanged(run, acts, i, j, k, t, l, h)
  {
    var run := ChangedIsRun();
    ChangedReads();
    ChangedActions();
    hide ChangedState, IsRun;
    PlainActsAreSafe(run, ChangedActs, 8, 9);
    assert Target(run[8], Locked(0)) == Some(1);
    UnguardedSoundIff(run, ChangedActs, 5, 8, 9, 1, 0, 3);
    assert SoundThoughChanged(run, ChangedActs, 5, 8, 9, 1, 0, 3);
  }

  lemma ChangedReads()
    ensures forall k: nat :: 5 <= k <= 9 ==> 0 in ChangedState(k).cells
    ensures ChangedState(5).cells[0].pointer == Some(0) && ChangedState(8).cells[0].pointer == ChangedState(9).cells[0].pointer == Some(1)
    ensures Target(ChangedState(8), Locked(0)) == Some(1)
  {
  }

  lemma ChangedActions()
    ensures |ChangedActs| == 10 && ChangedActs[5] == TestUnguarded(1, 0) && ChangedActs[8] == IncrementUnguarded(1)
    ensures ChangedActs[9] == ReturnUnguarded(1, 3)
    ensures forall m: nat :: m < 9 && m != 8 ==> !ChangedActs[m].IncrementUnguarded? && !ChangedActs[m].ReturnUnguarded?
  {
  }
}
