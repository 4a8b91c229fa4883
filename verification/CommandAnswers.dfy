/** The commands and the questionnaire fit together: what a command records, and
    that it settles the question it answers. */
module CommandAnswers {
  import opened Types
  import opened Policies
  import opened Commands
  import Questions

  /** The sender's command on a request, as it is applied. */
  function After(r: Request, phone: Phone, cmd: Command, rd: Reading, now: Now, time: int): Verdict {
    Applied(r, phone, cmd, rd, now, time)
  }

  lemma OnRequest(r: Request, phone: Phone)
    ensures OwnParty(r.parties, phone, None).Some? <==> HasPhone(r.parties, phone)
  {
    forall j | 0 <= j < |r.parties| ensures Mine(r.parties[j], phone, None) <==> r.parties[j].phone == phone {}
  }

  // -------------------------------------------------------------------- items

  /** A field after a command that states it, or does not. */
  predicate Stated<T(==)>(before: Option<T>, given: Option<T>, after: Option<T>) {
    after == if given.Some? then given else before
  }

  /** What one item is after the donor told about it. Words of something broken
      outweigh what the command says; an appliance is never taken apart. */
  predicate ItemTold(before: Item, cmd: Command, rd: Reading, after: Item)
    requires cmd.ItemFacts?
  {
    && Stated(before.free, cmd.free, after.free)
    && (if rd.brokenWords then after.working == Some(false) else Stated(before.working, cmd.working, after.working))
    && Stated(before.evacuation, cmd.evacuation, after.evacuation)
    && (if after.kind == Wardrobe then Stated(before.smallWhole, cmd.smallWhole, after.smallWhole)
        else after.smallWhole == before.smallWhole)
    && (if after.kind == Oven then Stated(before.ovenType, cmd.ovenType, after.ovenType)
        else after.ovenType == before.ovenType)
    && (if after.kind == Wardrobe || Questions.MayComeApart(after)
        then Stated(before.needsDisassembly, cmd.needsDisassembly, after.needsDisassembly)
        else after.needsDisassembly == Some(false))
  }

  /** What is known of item k, by its place in the list. */
  function Known(r: Request, k: nat): Item {
    if k < |r.items| then r.items[k] else Item(Other, "", 0, None, None, None, None, None, None)
  }

  function ItemCount(r: Request, cmd: Command): nat
    requires cmd.ItemFacts?
  {
    if cmd.newItems.Some? then |cmd.newItems.value| else |r.items|
  }

  /** The list after the command: the same items, or those it lists anew. */
  predicate ListTold(r: Request, cmd: Command, rd: Reading, items: seq<Item>)
    requires cmd.ItemFacts?
  {
    && |items| == ItemCount(r, cmd)
    && forall k :: 0 <= k < |items| ==>
         && ItemTold(Known(r, k), cmd, rd, items[k])
         && items[k].kind == (if cmd.newItems.Some? then cmd.newItems.value[k].kind else r.items[k].kind)
         && items[k].description ==
              (if cmd.newItems.Some? then cmd.newItems.value[k].description else r.items[k].description)
         && items[k].quantity == (if cmd.newItems.Some? then cmd.newItems.value[k].quantity else r.items[k].quantity)
  }

  /** What the bot moves: two things at most, given away, in working order, and a
      wardrobe, once it was seen, only small and whole. */
  predicate Movable(items: seq<Item>, hasPhoto: bool) {
    && TotalQuantity(items) <= 2
    && forall k :: 0 <= k < |items| ==>
         && items[k].kind !in {Piano, HouseMove}
         && items[k].free != Some(false) && items[k].working != Some(false)
         && (items[k].kind == Wardrobe && hasPhoto ==>
               items[k].needsDisassembly != Some(true) && items[k].smallWhole != Some(false))
  }

  predicate AnotherEvacuation(items: seq<Item>) {
    exists k :: 0 <= k < |items| && items[k].evacuation == Some(Different)
  }

  lemma MovableExactly(items: seq<Item>, hasPhoto: bool)
    ensures ItemError(items, hasPhoto).None? <==> Movable(items, hasPhoto)
  {
    if Movable(items, hasPhoto) {
      forall i | i in items ensures i.kind !in {Piano, HouseMove} && i.free != Some(false) && i.working != Some(false) {
        var k :| 0 <= k < |items| && items[k] == i;
      }
    } else if TotalQuantity(items) <= 2 {
      forall k | 0 <= k < |items| ensures items[k] in items {}
    }
  }

  /** A sum over the items, whatever way the list is cut. */
  lemma {:induction false} QuantitiesAddUp(a: seq<Item>, b: seq<Item>)
    ensures TotalQuantity(a + b) == TotalQuantity(a) + TotalQuantity(b)
    ensures |a| == 1 ==> TotalQuantity(a) == a[0].quantity
  {
    if a == [] {
      assert a + b == b;
    } else {
      QuantitiesAddUp(a[1..], b);
      assert (a + b)[1..] == a[1..] + b;
    }
  }

  /** The new list, before the rules judge it. */
  function NewList(r: Request, cmd: Command, rd: Reading): seq<Item>
    requires cmd.ItemFacts?
  {
    AllWithFacts(if cmd.newItems.Some? then Relisted(r.items, cmd.newItems.value) else r.items, cmd, rd)
  }

  predicate SameThing(i: Item, t: Item) {
    t.kind == i.kind && t.description == i.description && t.quantity == i.quantity
  }

  lemma GeneralFactsTold(i: Item, cmd: Command, rd: Reading)
    requires cmd.ItemFacts?
    ensures var t := WithFacts(i, cmd, rd);
            && SameThing(i, t)
            && Stated(i.free, cmd.free, t.free)
            && (if rd.brokenWords then t.working == Some(false) else Stated(i.working, cmd.working, t.working))
            && Stated(i.evacuation, cmd.evacuation, t.evacuation)
  {}

  lemma SpecialFactsTold(i: Item, cmd: Command, rd: Reading)
    requires cmd.ItemFacts?
    ensures var t := WithFacts(i, cmd, rd);
            && (if t.kind == Wardrobe then Stated(i.smallWhole, cmd.smallWhole, t.smallWhole)
                else t.smallWhole == i.smallWhole)
            && (if t.kind == Oven then Stated(i.ovenType, cmd.ovenType, t.ovenType) else t.ovenType == i.ovenType)
  {}

  lemma DisassemblyTold(i: Item, cmd: Command, rd: Reading)
    requires cmd.ItemFacts?
    ensures var t := WithFacts(i, cmd, rd);
            if t.kind == Wardrobe || Questions.MayComeApart(t)
            then Stated(i.needsDisassembly, cmd.needsDisassembly, t.needsDisassembly)
            else t.needsDisassembly == Some(false)
  {}

  lemma OneIsTold(i: Item, cmd: Command, rd: Reading)
    requires cmd.ItemFacts?
    ensures ItemTold(i, cmd, rd, WithFacts(i, cmd, rd)) && SameThing(i, WithFacts(i, cmd, rd))
  {
    GeneralFactsTold(i, cmd, rd);
    SpecialFactsTold(i, cmd, rd);
    DisassemblyTold(i, cmd, rd);
  }

  lemma NewListIsTold(r: Request, cmd: Command, rd: Reading)
    requires cmd.ItemFacts?
    ensures ListTold(r, cmd, rd, NewList(r, cmd, rd))
  {
    var listed := if cmd.newItems.Some? then Relisted(r.items, cmd.newItems.value) else r.items;
    forall k | 0 <= k < |listed|
      ensures ItemTold(Known(r, k), cmd, rd, WithFacts(listed[k], cmd, rd))
      ensures SameThing(listed[k], WithFacts(listed[k], cmd, rd))
    {
      OneIsTold(listed[k], cmd, rd);
    }
  }

  /** Only the donor may tell about the items of an open request, and a yes has to
      be confirmed by the message. */
  predicate MayTell(r: Request, phone: Phone, cmd: Command, rd: Reading)
    requires cmd.ItemFacts?
  {
    && !Protected(r)
    && (exists i :: 0 <= i < |r.parties| && r.parties[i].phone == phone && r.parties[i].role == Donor)
    && (cmd.free == Some(true) ==> rd.freeConfirmed || ItemCount(r, cmd) == 0)
    && (cmd.working == Some(true) ==> rd.workingConfirmed || ItemCount(r, cmd) == 0)
  }

  lemma DonorSide(r: Request, phone: Phone)
    ensures OwnParty(r.parties, phone, Some(Donor)).Some? <==>
              exists i :: 0 <= i < |r.parties| && r.parties[i].phone == phone && r.parties[i].role == Donor
    ensures OwnParty(r.parties, phone, Some(Donor)).Some? ==> OwnParty(r.parties, phone, None).Some?
  {
    if i :| 0 <= i < |r.parties| && r.parties[i].phone == phone && r.parties[i].role == Donor {
      assert Mine(r.parties[i], phone, Some(Donor)) && Mine(r.parties[i], phone, None);
    }
  }

  lemma TellsWhen(r: Request, phone: Phone, cmd: Command, rd: Reading)
    requires cmd.ItemFacts?
    ensures ApplyItemFacts(r, phone, cmd, rd) ==
              if MayTell(r, phone, cmd, rd) then JudgeItems(Invalidated(r).(items := NewList(r, cmd, rd)), r.items)
              else Refused
  {
    DonorSide(r, phone);
  }

  lemma AppliesTelling(r: Request, phone: Phone, cmd: Command, rd: Reading, now: Now, time: int)
    requires cmd.ItemFacts?
    ensures After(r, phone, cmd, rd, now, time) == ApplyItemFacts(r, phone, cmd, rd)
  {
    DonorSide(r, phone);
  }

  /** The judgement of a list: a rejection exactly when it cannot be moved, and
      then a list too long to store is not kept; a human exactly for another
      evacuation. */
  lemma JudgesExactly(r: Request, items: seq<Item>)
    requires r.status != Status.Rejected
    ensures var v := JudgeItems(r.(items := items), r.items);
            && v.Changed?
            && v.request == r.(items := v.request.items, status := v.request.status)
            && v.request.items == (if TotalQuantity(items) > 2 then r.items else items)
            && (v.request.status == Status.Rejected <==> !Movable(items, r.photos != []))
            && (v.handoff ==> v.request.status == Human)
            && (v.handoff <==> Movable(items, r.photos != []) && AnotherEvacuation(items))
            && (!v.handoff && Movable(items, r.photos != []) ==>
                  v.request.status == if |r.parties| == 1 && r.photos != [] then Available else r.status)
  {
    MovableExactly(items, r.photos != []);
    if AnotherEvacuation(items) {
      var k :| 0 <= k < |items| && items[k].evacuation == Some(Different);
      assert items[k] in items;
    }
  }

  predicate Asks(r: Request, phone: Phone, q: Question) {
    NextQuestion(r, phone) == Some(q)
  }

  /** What telling about the items leaves: the facts as told and judged, with
      any offered date to be approved again. */
  lemma TellsExactly(r: Request, phone: Phone, cmd: Command, rd: Reading, now: Now, time: int)
    returns (items: seq<Item>)
    requires cmd.ItemFacts?
    ensures ListTold(r, cmd, rd, items)
    ensures var v := After(r, phone, cmd, rd, now, time);
            && (v.Changed? <==> MayTell(r, phone, cmd, rd))
            && (v.Changed? ==>
                  && v.request.proposed.None? && v.request.parties == ClearedDates(r.parties)
                  && v.request.items == (if TotalQuantity(items) > 2 then r.items else items)
                  && (v.request.status == Status.Rejected <==> !Movable(items, r.photos != []))
                  && (v.handoff <==> Movable(items, r.photos != []) && AnotherEvacuation(items))
                  && (v.handoff ==> v.request.status == Human)
                  && (!v.handoff && Movable(items, r.photos != []) ==>
                        v.request.status == if |r.parties| == 1 && r.photos != [] then Available else r.status))
  {
    items := NewList(r, cmd, rd);
    NewListIsTold(r, cmd, rd);
    AppliesTelling(r, phone, cmd, rd, now, time);
    TellsWhen(r, phone, cmd, rd);
    if MayTell(r, phone, cmd, rd) { JudgesExactly(Invalidated(r), items); }
  }

  predicate ToldAll(i: Item, cmd: Command)
    requires cmd.ItemFacts?
  {
    && (cmd.working.Some? ==> i.working.Some?)
    && (cmd.ovenType.Some? && i.kind == Oven ==> i.ovenType.Some?)
    && (cmd.needsDisassembly.Some? && Questions.MayComeApart(i) ==> i.needsDisassembly.Some?)
    && (cmd.smallWhole == Some(true) && i.kind == Wardrobe ==> i.smallWhole == Some(true))
  }

  lemma AllTold(r: Request, cmd: Command, rd: Reading, items: seq<Item>)
    requires cmd.ItemFacts? && ListTold(r, cmd, rd, items)
    ensures forall i :: i in items ==> ToldAll(i, cmd)
  {
    forall i | i in items ensures ToldAll(i, cmd) {
      var k :| 0 <= k < |items| && items[k] == i;
      assert ItemTold(Known(r, k), cmd, rd, items[k]);
    }
  }

  lemma NothingToAskAboutItems(q: Request, phone: Phone, cmd: Command)
    requires cmd.ItemFacts? && forall i :: i in q.items ==> ToldAll(i, cmd)
    ensures cmd.working.Some? ==> !Asks(q, phone, IsItWorking)
    ensures cmd.ovenType.Some? ==> !Asks(q, phone, WhichOven)
    ensures cmd.needsDisassembly.Some? ==> !Asks(q, phone, NeedsDisassembly)
    ensures cmd.smallWhole == Some(true) ==> !Asks(q, phone, IsWardrobeSmall)
  {
    Questions.AskedAboutItems(q, phone);
  }

  /** Each question about the items is settled by the answer it asks for. */
  lemma ItemQuestionsAreSettled(r: Request, phone: Phone, cmd: Command, rd: Reading, now: Now, time: int)
    requires cmd.ItemFacts? && After(r, phone, cmd, rd, now, time).Changed?
    ensures var q := After(r, phone, cmd, rd, now, time).request;
            && (cmd.working.Some? ==> !Asks(q, phone, IsItWorking))
            && (cmd.ovenType.Some? ==> !Asks(q, phone, WhichOven))
            && (cmd.needsDisassembly.Some? ==> !Asks(q, phone, NeedsDisassembly))
            && (cmd.smallWhole == Some(true) ==> !Asks(q, phone, IsWardrobeSmall))
  {
    var items := TellsExactly(r, phone, cmd, rd, now, time);
    var q := After(r, phone, cmd, rd, now, time).request;
    if q.status == Status.Rejected {
      Questions.NextQuestionExactly(q, phone);
    } else {
      AllTold(r, cmd, rd, items);
      NothingToAskAboutItems(q, phone, cmd);
    }
  }

  /** What does not work, or is not given away, ends the request. */
  lemma BrokenIsRejected(r: Request, phone: Phone, cmd: Command, rd: Reading, now: Now, time: int, items: seq<Item>)
    requires cmd.ItemFacts? && After(r, phone, cmd, rd, now, time).Changed? && ListTold(r, cmd, rd, items)
    requires items != [] && (cmd.working == Some(false) || rd.brokenWords || cmd.free == Some(false))
    ensures var q := After(r, phone, cmd, rd, now, time).request;
            && q.status == Status.Rejected && Asks(q, phone, RequestClosed)
            && (TotalQuantity(items) <= 2 && (cmd.working == Some(false) || rd.brokenWords) ==>
                  forall i :: i in q.items ==> i.working == Some(false))
  {
    var told := TellsExactly(r, phone, cmd, rd, now, time);
    SameList(r, cmd, rd, items);
    SameList(r, cmd, rd, told);
    assert ItemTold(Known(r, 0), cmd, rd, items[0]);
    if cmd.working == Some(false) || rd.brokenWords {
      forall i | i in items ensures i.working == Some(false) {
        var k :| 0 <= k < |items| && items[k] == i;
        assert ItemTold(Known(r, k), cmd, rd, items[k]);
      }
    }
  }

  /** The facts as told leave no choice. */
  lemma SameList(r: Request, cmd: Command, rd: Reading, items: seq<Item>)
    requires cmd.ItemFacts? && ListTold(r, cmd, rd, items)
    ensures items == NewList(r, cmd, rd)
  {
    var list := NewList(r, cmd, rd);
    NewListIsTold(r, cmd, rd);
    forall k | 0 <= k < |items| ensures items[k] == list[k] {
      assert ItemTold(Known(r, k), cmd, rd, items[k]) && ItemTold(Known(r, k), cmd, rd, list[k]);
    }
  }
}
