/**
 A leader schedule by slot and by node (stake_vote/src/leader_schedule.rs): the slot leaders are grouped
 by the text of their key, and the list of leaders is rebuilt from such a grouping. How keys are written
 and read is given by two functions.
 */
module LeaderSchedule {
  import opened Common

  type ByNode = map<string, seq<nat>>

  /** The slots of one node, ascending. */
  function SlotsOf(leaders: seq<Pubkey>, show: Pubkey -> string, name: string): seq<nat> {
    if leaders == [] then []
    else
      SlotsOf(leaders[..|leaders| - 1], show, name) +
        if show(leaders[|leaders| - 1]) == name then [|leaders| - 1] else []
  }

  /** Each node that leads some slot is listed with all its slots. */
  ghost predicate IsGrouping(m: ByNode, leaders: seq<Pubkey>, show: Pubkey -> string) {
    && (forall name :: name in m <==> SlotsOf(leaders, show, name) != [])
    && (forall name :: name in m ==> m[name] == SlotsOf(leaders, show, name))
  }

  method GetScheduleByNodes(leaders: seq<Pubkey>, show: Pubkey -> string) returns (m: ByNode)
    ensures IsGrouping(m, leaders, show)
  {
    m := map[];
    for i := 0 to |leaders|
      invariant IsGrouping(m, leaders[..i], show)
    {
      GroupAt(m, leaders, i, show);
      m := Grouped(m, show(leaders[i]), i);
    }
    assert leaders[..|leaders|] == leaders;
  }

  function Grouped(m: ByNode, name: string, slot: nat): ByNode {
    m[name := (if name in m then m[name] else []) + [slot]]
  }

  lemma {:induction false} GroupNext(m: ByNode, leaders: seq<Pubkey>, next: Pubkey, show: Pubkey -> string)
    requires IsGrouping(m, leaders, show)
    ensures IsGrouping(Grouped(m, show(next), |leaders|), leaders + [next], show)
  {
    forall name
      ensures SlotsOf(leaders + [next], show, name) ==
        SlotsOf(leaders, show, name) + if show(next) == name then [|leaders|] else []
    {
      assert (leaders + [next])[..|leaders|] == leaders;
    }
  }

  lemma {:induction false} GroupAt(m: ByNode, leaders: seq<Pubkey>, i: nat, show: Pubkey -> string)
    requires i < |leaders| && IsGrouping(m, leaders[..i], show)
    ensures IsGrouping(Grouped(m, show(leaders[i]), i), leaders[..i + 1], show)
  {
    GroupNext(m, leaders[..i], leaders[i], show);
    assert leaders[..i] + [leaders[i]] == leaders[..i + 1];
  }

  // ----- rebuilding

  /** A slot map that the grouping allows: each listed slot belongs to a node that lists it. */
  ghost predicate Rebuilds(slots: map<nat, Pubkey>, m: ByNode, parse: string -> Option<Pubkey>) {
    && (forall name, slot :: name in m && slot in m[name] ==> slot in slots)
    && (forall slot :: slot in slots ==>
      exists name :: name in m && slot in m[name] && parse(name) == Some(slots[slot]))
  }

  /** The values of an ordered map. */
  function InKeyOrder(slots: map<nat, Pubkey>): seq<Pubkey>
    decreases |slots|
  {
    if slots == map[] then []
    else
      var first := Min(slots.Keys);
      assert |slots - {first}| < |slots| by { assert (slots - {first}).Keys == slots.Keys - {first}; }
      [slots[first]] + InKeyOrder(slots - {first})
  }

  /** A name whose slots would have to be read but whose text is no key. */
  predicate Unreadable(m: ByNode, parse: string -> Option<Pubkey>, name: string) {
    name in m && m[name] != [] && parse(name).None?
  }

  /** The rebuild fails exactly on an unreadable key, and otherwise lists the leaders in slot order. */
  ghost predicate IsRebuilt(r: Option<seq<Pubkey>>, m: ByNode, parse: string -> Option<Pubkey>) {
    if r.None? then exists name :: Unreadable(m, parse, name)
    else
      && (forall name :: !Unreadable(m, parse, name))
      && exists slots :: Rebuilds(slots, m, parse) && r.value == InKeyOrder(slots)
  }

  /** The part of the grouping under the given names. */
  function Visited(m: ByNode, done: set<string>): ByNode {
    map name | name in m && name in done :: m[name]
  }

  method CalculateSlotLeadersFromSchedule(m: ByNode, parse: string -> Option<Pubkey>) returns (r: Option<seq<Pubkey>>)
    ensures IsRebuilt(r, m, parse)
  {
    var slots: map<nat, Pubkey> := map[];
    var todo := m.Keys;
    ghost var done: set<string> := {};
    while todo != {}
      invariant forall name :: name in m <==> name in todo || name in done
      invariant Rebuilds(slots, Visited(m, done), parse) && forall name :: name in done ==> !Unreadable(m, parse, name)
    {
      var name :| name in todo;
      var ok, entered := EnterSlots(slots, m[name], parse, name);
      if !ok {
        assert Unreadable(m, parse, name);
        return None;
      }
      VisitNext(slots, m, done, name, parse);
      slots := entered;
      todo := todo - {name};
      done := done + {name};
    }
    assert Visited(m, done) == m;
    assert forall name :: !Unreadable(m, parse, name);
    r := Some(InKeyOrder(slots));
  }

  /** The slot map with all slots of one node entered. */
  function AddSlots(slots: map<nat, Pubkey>, list: seq<nat>, leader: Pubkey): (r: map<nat, Pubkey>)
    ensures forall slot :: slot in r <==> slot in slots || slot in list
    ensures forall slot :: slot in r ==> r[slot] == if slot in list then leader else slots[slot]
    decreases |list|
  {
    if list == [] then slots
    else
      assert list == list[..|list| - 1] + [list[|list| - 1]];
      AddSlots(slots, list[..|list| - 1], leader)[list[|list| - 1] := leader]
  }

  /** The inner loop; the text of the key is read again for each slot. */
  method EnterSlots(slots: map<nat, Pubkey>, list: seq<nat>, parse: string -> Option<Pubkey>, name: string)
    returns (ok: bool, r: map<nat, Pubkey>)
    ensures ok <==> list == [] || parse(name).Some?
    ensures ok ==> r == if list == [] then slots else AddSlots(slots, list, parse(name).value)
  {
    r := slots;
    for i := 0 to |list|
      invariant i > 0 ==> parse(name).Some? && r == AddSlots(slots, list[..i], parse(name).value)
      invariant i == 0 ==> r == slots
    {
      var leader := parse(name);
      if leader.None? {
        return false, slots;
      }
      assert list[..i + 1][..i] == list[..i];
      assert list[..0] == [];
      r := r[list[i] := leader.value];
    }
    assert list[..|list|] == list;
    ok := true;
  }

  lemma {:induction false} VisitNext(
      slots: map<nat, Pubkey>, m: ByNode, done: set<string>, name: string, parse: string -> Option<Pubkey>)
    requires name in m && Rebuilds(slots, Visited(m, done), parse) && !Unreadable(m, parse, name)
    ensures Rebuilds(if m[name] == [] then slots else AddSlots(slots, m[name], parse(name).value),
                     Visited(m, done + {name}), parse)
  {
    var after, visited :=
      if m[name] == [] then slots else AddSlots(slots, m[name], parse(name).value), Visited(m, done + {name});
    forall n, slot | n in visited && slot in visited[n] ensures slot in after {
      if n != name { assert n in Visited(m, done) && slot in Visited(m, done)[n]; }
    }
    forall slot | slot in after
      ensures exists n :: n in visited && slot in visited[n] && parse(n) == Some(after[slot])
    {
      if slot in m[name] {
        assert name in visited && slot in visited[name] && parse(name) == Some(after[slot]);
      } else {
        var n :| n in Visited(m, done) && slot in Visited(m, done)[n] && parse(n) == Some(slots[slot]);
        assert n in visited && slot in visited[n] && parse(n) == Some(after[slot]);
      }
    }
  }

  // ----- the round trip

  ghost predicate ReadsBack(show: Pubkey -> string, parse: string -> Option<Pubkey>) {
    forall pk: Pubkey :: parse(show(pk)) == Some(pk)
  }

  lemma {:induction false} SlotsOfMembers(leaders: seq<Pubkey>, show: Pubkey -> string, name: string, slot: nat)
    ensures slot in SlotsOf(leaders, show, name) <==> slot < |leaders| && show(leaders[slot]) == name
  {
    if leaders != [] { SlotsOfMembers(leaders[..|leaders| - 1], show, name, slot); }
  }

  /** Whatever slot map the rebuild arrives at, it is the original list. */
  lemma {:induction false} RebuiltSlots(
      leaders: seq<Pubkey>, m: ByNode, slots: map<nat, Pubkey>, show: Pubkey -> string,
      parse: string -> Option<Pubkey>)
    requires IsGrouping(m, leaders, show) && ReadsBack(show, parse) && Rebuilds(slots, m, parse)
    ensures forall slot: nat :: slot in slots <==> slot < |leaders|
    ensures forall slot :: slot in slots ==> slots[slot] == leaders[slot]
  {
    forall slot: nat | slot < |leaders| ensures slot in slots {
      SlotsOfMembers(leaders, show, show(leaders[slot]), slot);
      assert slot in m[show(leaders[slot])];
    }
    forall slot | slot in slots ensures slot < |leaders| && slots[slot] == leaders[slot] {
      var name :| name in m && slot in m[name] && parse(name) == Some(slots[slot]);
      SlotsOfMembers(leaders, show, name, slot);
      assert parse(show(leaders[slot])) == Some(leaders[slot]);
    }
  }

  lemma {:induction false} DenseInKeyOrder(slots: map<nat, Pubkey>, leaders: seq<Pubkey>, from: nat)
    requires from <= |leaders| && (forall slot: nat :: slot in slots <==> from <= slot < |leaders|)
    requires forall slot :: slot in slots ==> slots[slot] == leaders[slot]
    ensures InKeyOrder(slots) == leaders[from..]
    decreases |leaders| - from
  {
    if from == |leaders| {
      assert slots == map[];
    } else {
      assert from in slots;
      assert Min(slots.Keys) == from;
      DenseInKeyOrder(slots - {from}, leaders, from + 1);
      assert leaders[from..] == [leaders[from]] + leaders[from + 1..];
    }
  }

  /** Grouping a slot-leader list by node and rebuilding the list gives back the original, for every schedule. */
  lemma {:induction false} GroupAndRebuild(
      leaders: seq<Pubkey>, m: ByNode, r: Option<seq<Pubkey>>, show: Pubkey -> string,
      parse: string -> Option<Pubkey>)
    requires IsGrouping(m, leaders, show) && ReadsBack(show, parse) && IsRebuilt(r, m, parse)
    ensures r == Some(leaders)
  {
    forall name ensures !Unreadable(m, parse, name) {
      if name in m {
        var slot := m[name][0];
        SlotsOfMembers(leaders, show, name, slot);
        assert parse(show(leaders[slot])).Some?;
      }
    }
    var slots :| Rebuilds(slots, m, parse) && r.value == InKeyOrder(slots);
    RebuiltSlots(leaders, m, slots, show, parse);
    DenseInKeyOrder(slots, leaders, 0);
    assert leaders[0..] == leaders;
  }

  ghost predicate Ascends(slots: seq<nat>, bound: nat) {
    && (forall i, j :: 0 <= i < j < |slots| ==> slots[i] < slots[j])
    && (forall i :: 0 <= i < |slots| ==> slots[i] < bound)
  }

  lemma {:induction false} AscendsOn(slots: seq<nat>, bound: nat)
    requires Ascends(slots, bound)
    ensures Ascends(slots, bound + 1) && Ascends(slots + [bound], bound + 1)
  {
  }

  /** The slots of a node are listed in ascending order. */
  lemma {:induction false} SlotsAscend(leaders: seq<Pubkey>, show: Pubkey -> string, name: string)
    ensures Ascends(SlotsOf(leaders, show, name), |leaders|)
  {
    if leaders != [] {
      var front := SlotsOf(leaders[..|leaders| - 1], show, name);
      SlotsAscend(leaders[..|leaders| - 1], show, name);
      AscendsOn(front, |leaders| - 1);
      assert front + [] == front;
    }
  }
}
