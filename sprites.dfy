/** SpriteManager: the player, the monster and the live list of notes. The
    list operations are defined on note values first; the object list is
    tied to them through Views. */
module Sprites {
  import opened Input
  import opened Entities

  /** Ids strictly increase along the list (notes are appended with ever
      larger ids), so no id, and no note, occurs twice. */
  predicate IdsIncreasing(vs: seq<NoteView>) {
    forall i, j :: 0 <= i < j < |vs| ==> vs[i].id < vs[j].id
  }

  /** The ids occurring in a list. */
  function IdSet(vs: seq<NoteView>): set<nat>
    decreases |vs|
  {
    if vs == [] then {} else {vs[0].id} + IdSet(vs[1..])
  }

  /** The notes of `vs` satisfying `keep`, in order. */
  function Filter(vs: seq<NoteView>, keep: NoteView -> bool): seq<NoteView>
    decreases |vs|
  {
    if vs == [] then []
    else (if keep(vs[0]) then [vs[0]] else []) + Filter(vs[1..], keep)
  }

  function Not(keep: NoteView -> bool): NoteView -> bool {
    n => !keep(n)
  }

  /** removeNote. */
  function RemoveId(vs: seq<NoteView>, id: nat): seq<NoteView>
    decreases |vs|
  {
    if vs == [] then []
    else (if vs[0].id != id then [vs[0]] else []) + RemoveId(vs[1..], id)
  }

  /** A sequence of removeNote calls, in order. */
  function RemoveIds(vs: seq<NoteView>, ids: seq<nat>): seq<NoteView>
    decreases |ids|
  {
    if ids == [] then vs else RemoveIds(RemoveId(vs, ids[0]), ids[1..])
  }

  /** The notes whose id is not in `ids` (the reference for the removals). */
  function WithoutIds(vs: seq<NoteView>, ids: set<nat>): seq<NoteView>
    decreases |vs|
  {
    if vs == [] then []
    else (if vs[0].id !in ids then [vs[0]] else []) + WithoutIds(vs[1..], ids)
  }

  /** removeOffScreenNotes. */
  function OnScreen(vs: seq<NoteView>): seq<NoteView>
    decreases |vs|
  {
    if vs == [] then []
    else (if !vs[0].OffScreen() then [vs[0]] else []) + OnScreen(vs[1..])
  }

  /** The notes moved by one frame. */
  function MovedAll(vs: seq<NoteView>, dt: real): (ms: seq<NoteView>)
    ensures |ms| == |vs| && forall i :: 0 <= i < |vs| ==> ms[i] == vs[i].Moved(dt)
    decreases |vs|
  {
    if vs == [] then [] else [vs[0].Moved(dt)] + MovedAll(vs[1..], dt)
  }

  /** getNotesByDirection. */
  function OfDirection(vs: seq<NoteView>, d: Direction): seq<NoteView>
    decreases |vs|
  {
    if vs == [] then []
    else (if vs[0].direction == d then [vs[0]] else []) + OfDirection(vs[1..], d)
  }

  /** A list is its head followed by its tail. */
  lemma Cons(vs: seq<NoteView>)
    requires vs != []
    ensures forall v :: v in vs <==> v == vs[0] || v in vs[1..]
    ensures IdsIncreasing(vs) <==> IdsIncreasing(vs[1..]) && forall v :: v in vs[1..] ==> vs[0].id < v.id
  {
    var t := vs[1..];
    assert forall i :: 0 < i < |vs| ==> vs[i] == t[i - 1];
    if IdsIncreasing(t) && forall v :: v in t ==> vs[0].id < v.id {
      forall i, j | 0 <= i < j < |vs| ensures vs[i].id < vs[j].id {
        assert vs[j] == t[j - 1];
        if i > 0 {
          assert vs[i] == t[i - 1];
        } else {
          assert vs[j] in t;
        }
      }
    }
    if IdsIncreasing(vs) {
      forall v | v in t ensures vs[0].id < v.id {
        var k :| 0 <= k < |t| && t[k] == v;
        assert vs[k + 1] == v;
      }
    }
  }

  /** The same for a list built as a head and a tail. */
  lemma Split(h: NoteView, t: seq<NoteView>)
    ensures ([h] + t)[0] == h && ([h] + t)[1..] == t
  {
  }

  lemma {:induction false} IdSetSpec(vs: seq<NoteView>)
    ensures forall v :: v in vs ==> v.id in IdSet(vs)
    ensures forall id :: id in IdSet(vs) ==> exists i :: 0 <= i < |vs| && vs[i].id == id
    decreases |vs|
  {
    if vs != [] {
      IdSetSpec(vs[1..]);
      Cons(vs);
      forall id | id in IdSet(vs) ensures exists i :: 0 <= i < |vs| && vs[i].id == id {
        if id != vs[0].id {
          var i :| 0 <= i < |vs[1..]| && vs[1..][i].id == id;
          assert vs[i + 1].id == id;
        }
      }
    }
  }

  /** Filtering keeps exactly the notes that pass, in order, and keeps the
      ids increasing. */
  lemma {:induction false} FilterSpec(vs: seq<NoteView>, keep: NoteView -> bool)
    ensures forall v :: v in Filter(vs, keep) <==> v in vs && keep(v)
    ensures IdsIncreasing(vs) ==> IdsIncreasing(Filter(vs, keep))
    ensures |Filter(vs, keep)| <= |vs|
    ensures Filter(vs, keep) == [] <==> forall v :: v in vs ==> !keep(v)
    decreases |vs|
  {
    if vs != [] {
      var t := vs[1..];
      FilterSpec(t, keep);
      Cons(vs);
      if keep(vs[0]) {
        Split(vs[0], Filter(t, keep));
        Cons([vs[0]] + Filter(t, keep));
      }
    }
  }

  /** removeNote drops exactly the notes with that id, and nothing else. */
  lemma {:induction false} WithoutIdsSpec(vs: seq<NoteView>, ids: set<nat>)
    ensures forall v :: v in WithoutIds(vs, ids) <==> v in vs && v.id !in ids
    ensures IdsIncreasing(vs) ==> IdsIncreasing(WithoutIds(vs, ids))
    decreases |vs|
  {
    if vs != [] {
      var t := vs[1..];
      WithoutIdsSpec(t, ids);
      Cons(vs);
      if vs[0].id !in ids {
        Split(vs[0], WithoutIds(t, ids));
        Cons([vs[0]] + WithoutIds(t, ids));
      }
    }
  }

  /** Removing one id after a set of ids is removing their union. */
  lemma {:induction false} RemoveIdSpec(vs: seq<NoteView>, ids: set<nat>, id: nat)
    ensures RemoveId(WithoutIds(vs, ids), id) == WithoutIds(vs, ids + {id})
    decreases |vs|
  {
    if vs != [] {
      var t := vs[1..];
      var w := WithoutIds(t, ids);
      RemoveIdSpec(t, ids, id);
      if vs[0].id !in ids {
        assert WithoutIds(vs, ids) == [vs[0]] + w;
        Split(vs[0], w);
        assert RemoveId([vs[0]] + w, id) == (if vs[0].id != id then [vs[0]] else []) + RemoveId(w, id);
      } else {
        assert WithoutIds(vs, ids) == w;
      }
    }
  }

  lemma {:induction false} WithoutNoIds(vs: seq<NoteView>)
    ensures WithoutIds(vs, {}) == vs
    decreases |vs|
  {
    if vs != [] {
      WithoutNoIds(vs[1..]);
    }
  }

  /** removeNote is removing the set holding the one id. */
  lemma RemoveIdIsWithout(vs: seq<NoteView>, id: nat)
    ensures RemoveId(vs, id) == WithoutIds(vs, {id})
  {
    WithoutNoIds(vs);
    RemoveIdSpec(vs, {}, id);
  }

  /** A sequence of removeNote calls removes exactly the listed ids. */
  lemma {:induction false} RemoveIdsSpec(vs: seq<NoteView>, ids: set<nat>, removed: seq<nat>)
    ensures RemoveIds(WithoutIds(vs, ids), removed) == WithoutIds(vs, ids + set i | i in removed)
    decreases |removed|
  {
    if removed != [] {
      assert RemoveIds(WithoutIds(vs, ids), removed)
          == RemoveIds(RemoveId(WithoutIds(vs, ids), removed[0]), removed[1..]);
      RemoveIdSpec(vs, ids, removed[0]);
      RemoveIdsSpec(vs, ids + {removed[0]}, removed[1..]);
      var all := set i | i in removed;
      var rest := set i | i in removed[1..];
      assert forall i :: i in removed <==> i == removed[0] || i in removed[1..];
      assert all == {removed[0]} + rest;
      assert ids + {removed[0]} + rest == ids + all;
    } else {
      var none := set i | i in removed;
      assert none == {};
      assert ids + none == ids;
      assert RemoveIds(WithoutIds(vs, ids), removed) == WithoutIds(vs, ids + none);
    }
  }

  /** Removing ids that do not occur changes nothing. */
  lemma {:induction false} WithoutForeignIds(vs: seq<NoteView>, ids: set<nat>, extra: set<nat>)
    requires extra !! IdSet(vs)
    ensures WithoutIds(vs, ids + extra) == WithoutIds(vs, ids)
    decreases |vs|
  {
    if vs != [] {
      WithoutForeignIds(vs[1..], ids, extra);
    }
  }

  /** Filtering keeps only ids that were there. */
  lemma {:induction false} FilterIdSet(vs: seq<NoteView>, keep: NoteView -> bool)
    ensures IdSet(Filter(vs, keep)) <= IdSet(vs)
    decreases |vs|
  {
    if vs != [] {
      var ft := Filter(vs[1..], keep);
      FilterIdSet(vs[1..], keep);
      assert IdSet(vs) == {vs[0].id} + IdSet(vs[1..]);
      if keep(vs[0]) {
        assert Filter(vs, keep) == [vs[0]] + ft;
        Split(vs[0], ft);
        assert IdSet([vs[0]] + ft) == {vs[0].id} + IdSet(ft);
      } else {
        assert Filter(vs, keep) == ft;
      }
    }
  }

  /** No id of the list is at or below a strict lower bound of its ids. */
  lemma {:induction false} IdSetAbove(vs: seq<NoteView>, b: nat)
    requires forall i :: 0 <= i < |vs| ==> vs[i].id > b
    ensures b !in IdSet(vs)
    decreases |vs|
  {
    if vs != [] {
      assert forall i :: 0 <= i < |vs[1..]| ==> vs[1..][i] == vs[i + 1];
      IdSetAbove(vs[1..], b);
    }
  }

  /** With unique ids, removing by id the notes that satisfy `keep` is
      filtering by its negation. */
  lemma {:induction false} WithoutFilteredIds(vs: seq<NoteView>, keep: NoteView -> bool)
    requires IdsIncreasing(vs)
    ensures WithoutIds(vs, IdSet(Filter(vs, keep))) == Filter(vs, Not(keep))
    decreases |vs|
  {
    if vs != [] {
      var h := vs[0];
      var t := vs[1..];
      var ft := Filter(t, keep);
      assert forall i :: 0 <= i < |t| ==> t[i] == vs[i + 1];
      assert IdsIncreasing(t);
      WithoutFilteredIds(t, keep);
      IdSetAbove(t, h.id);
      FilterIdSet(t, keep);
      assert h.id !in IdSet(ft);
      if keep(h) {
        assert Filter(vs, keep) == [h] + ft;
        Split(h, ft);
        assert IdSet(Filter(vs, keep)) == {h.id} + IdSet(ft);
        WithoutForeignIds(t, IdSet(ft), {h.id});
        assert IdSet(ft) + {h.id} == {h.id} + IdSet(ft);
        assert WithoutIds(vs, IdSet(Filter(vs, keep))) == WithoutIds(t, IdSet(ft));
        assert Filter(vs, Not(keep)) == Filter(t, Not(keep));
      } else {
        assert Filter(vs, keep) == ft;
        assert WithoutIds(vs, IdSet(ft)) == [h] + WithoutIds(t, IdSet(ft));
        assert Filter(vs, Not(keep)) == [h] + Filter(t, Not(keep));
      }
    }
  }

  /** The notes moved by a frame keep their ids. */
  lemma {:induction false} MovedAllIds(vs: seq<NoteView>, dt: real)
    ensures IdSet(MovedAll(vs, dt)) == IdSet(vs)
    ensures IdsIncreasing(vs) ==> IdsIncreasing(MovedAll(vs, dt))
    decreases |vs|
  {
    if vs != [] {
      MovedAllIds(vs[1..], dt);
      Split(vs[0].Moved(dt), MovedAll(vs[1..], dt));
    }
  }

  /** removeOffScreenNotes keeps exactly the notes still on screen. */
  lemma {:induction false} OnScreenSpec(vs: seq<NoteView>)
    ensures forall v :: v in OnScreen(vs) <==> v in vs && !v.OffScreen()
    ensures IdsIncreasing(vs) ==> IdsIncreasing(OnScreen(vs))
    decreases |vs|
  {
    if vs != [] {
      var t := vs[1..];
      OnScreenSpec(t);
      Cons(vs);
      if !vs[0].OffScreen() {
        Split(vs[0], OnScreen(t));
        Cons([vs[0]] + OnScreen(t));
      }
    }
  }

  /** getNotesByDirection keeps exactly the notes of that direction. */
  lemma {:induction false} OfDirectionSpec(vs: seq<NoteView>, d: Direction)
    ensures forall v :: v in OfDirection(vs, d) <==> v in vs && v.direction == d
    decreases |vs|
  {
    if vs != [] {
      OfDirectionSpec(vs[1..], d);
      Cons(vs);
    }
  }

  /** The values of a list of note objects. */
  function Views(ns: seq<Note>): (vs: seq<NoteView>)
    reads ns
    ensures |vs| == |ns| && forall i :: 0 <= i < |ns| ==> vs[i] == ns[i].View()
    decreases |ns|
  {
    if ns == [] then [] else [ns[0].View()] + Views(ns[1..])
  }

  /** removeNote on the objects: an id never changes, so no state is read. */
  function FilterId(ns: seq<Note>, id: nat): seq<Note>
    decreases |ns|
  {
    if ns == [] then []
    else (if ns[0].id != id then [ns[0]] else []) + FilterId(ns[1..], id)
  }

  lemma {:induction false} FilterIdViews(ns: seq<Note>, id: nat)
    ensures Views(FilterId(ns, id)) == RemoveId(Views(ns), id)
    ensures forall n :: n in FilterId(ns, id) ==> n in ns && n.id != id
    decreases |ns|
  {
    if ns != [] {
      FilterIdViews(ns[1..], id);
      assert Views(ns)[1..] == Views(ns[1..]);
    }
  }

  /** removeOffScreenNotes on the objects. */
  function KeepOnScreen(ns: seq<Note>): seq<Note>
    reads ns
    decreases |ns|
  {
    if ns == [] then []
    else (if !ns[0].IsOffScreen(0.0) then [ns[0]] else []) + KeepOnScreen(ns[1..])
  }

  lemma {:induction false} KeepOnScreenViews(ns: seq<Note>)
    ensures Views(KeepOnScreen(ns)) == OnScreen(Views(ns))
    ensures forall n :: n in KeepOnScreen(ns) ==> n in ns
    decreases |ns|
  {
    if ns != [] {
      KeepOnScreenViews(ns[1..]);
      assert Views(ns)[1..] == Views(ns[1..]);
    }
  }

  /** getNotesByDirection on the objects. */
  function FilterDirection(ns: seq<Note>, d: Direction): seq<Note>
    decreases |ns|
  {
    if ns == [] then []
    else (if ns[0].direction == d then [ns[0]] else []) + FilterDirection(ns[1..], d)
  }

  lemma {:induction false} FilterDirectionViews(ns: seq<Note>, d: Direction)
    ensures Views(FilterDirection(ns, d)) == OfDirection(Views(ns), d)
    decreases |ns|
  {
    if ns != [] {
      FilterDirectionViews(ns[1..], d);
      assert Views(ns)[1..] == Views(ns[1..]);
    }
  }

  /** Ids increase along a list of note objects; an id never changes, so
      this reads no state, and it makes the objects pairwise distinct. */
  predicate NoteIdsIncreasing(ns: seq<Note>)
    ensures NoteIdsIncreasing(ns) ==> forall i, j :: 0 <= i < j < |ns| ==> ns[i] != ns[j]
  {
    forall i, j :: 0 <= i < j < |ns| ==> ns[i].id < ns[j].id
  }

  /** Every id of a list of note objects is below `bound`. */
  predicate NoteIdsBelow(ns: seq<Note>, bound: nat) {
    forall i :: 0 <= i < |ns| ==> ns[i].id < bound
  }

  /** A note whose id is above every id of the list may be appended. */
  lemma NoteIdsAppend(ns: seq<Note>, n: Note)
    requires NoteIdsIncreasing(ns) && NoteIdsBelow(ns, n.id)
    ensures NoteIdsIncreasing(ns + [n]) && NoteIdsBelow(ns + [n], n.id + 1)
  {
  }

  lemma NoteIdsBelowViews(ns: seq<Note>, bound: nat)
    requires forall i :: 0 <= i < |Views(ns)| ==> Views(ns)[i].id < bound
    ensures NoteIdsBelow(ns, bound)
  {
    var vs := Views(ns);
    assert forall i :: 0 <= i < |ns| ==> vs[i].id == ns[i].id;
  }

  lemma NoteIdsViews(ns: seq<Note>)
    ensures NoteIdsIncreasing(ns) <==> IdsIncreasing(Views(ns))
  {
    var vs := Views(ns);
    assert forall i :: 0 <= i < |ns| ==> vs[i].id == ns[i].id;
  }

  class SpriteManager {
    const player: Player
    const monster: Monster
    var notes: seq<Note>

    /** setPlayer and setMonster, done once when the sprites are set up. */
    constructor (player: Player, monster: Monster)
      ensures this.player == player && this.monster == monster && notes == []
    {
      this.player := player;
      this.monster := monster;
      notes := [];
    }

    method AddNote(note: Note)
      modifies this
      ensures notes == old(notes) + [note]
      ensures Views(notes) == old(Views(notes)) + [note.View()]
    {
      notes := notes + [note];
    }

    method RemoveNote(noteId: nat)
      modifies this
      ensures notes == FilterId(old(notes), noteId)
    {
      notes := FilterId(notes, noteId);
    }

    function GetNotes(): seq<Note>
      reads this
    {
      notes
    }

    function GetNotesByDirection(d: Direction): seq<Note>
      reads this
    {
      FilterDirection(notes, d)
    }

    /** update: the player animation runs down, the monster moves once it
        has started, and every note moves by one frame. */
    method Update(dt: real, monsterHasStarted: bool)
      requires forall i, j :: 0 <= i < j < |notes| ==> notes[i] != notes[j]
      modifies player, monster, notes
      ensures player.Animation() == FlashUpdated(old(player.Animation()), dt)
      ensures monster.x == (if monsterHasStarted then Approached(old(monster.x), old(monster.currentSpeed), dt) else old(monster.x))
      ensures monster.currentSpeed == old(monster.currentSpeed)
      ensures Views(notes) == MovedAll(old(Views(notes)), dt)
    {
      player.Update(dt);
      if monsterHasStarted {
        monster.Update(dt);
      }
      var i := 0;
      while i < |notes|
        invariant 0 <= i <= |notes|
        invariant forall j :: 0 <= j < i ==> notes[j].View() == old(notes[j].View()).Moved(dt)
        invariant forall j :: i <= j < |notes| ==> notes[j].View() == old(notes[j].View())
        invariant player.Animation() == FlashUpdated(old(player.Animation()), dt)
        invariant monster.x == (if monsterHasStarted then Approached(old(monster.x), old(monster.currentSpeed), dt) else old(monster.x))
        invariant monster.currentSpeed == old(monster.currentSpeed)
      {
        notes[i].Update(dt);
        i := i + 1;
      }
    }

    method ClearNotes()
      modifies this
      ensures notes == []
    {
      notes := [];
    }

    function GetNoteCount(): nat
      reads this
    {
      |notes|
    }

    /** removeOffScreenNotes: the canvas width plays no part in the test. */
    method RemoveOffScreenNotes(canvasWidth: real)
      modifies this
      ensures notes == KeepOnScreen(old(notes))
    {
      notes := KeepOnScreen(notes);
    }
  }
}
