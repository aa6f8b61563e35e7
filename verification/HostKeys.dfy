/**
 The table of devices' SSH host keys: who may make a key an accepted one, and when.
 */
module HostKeyStore {
  import opened Options

  type Target = string

  /** A key as "type base64". */
  datatype Key = Key(kind: string, body: string)

  datatype KeyState = Accepted | Refused

  datatype Row = Row(id: nat, target: Target, key: Key, state: KeyState)

  datatype Change = Changed(rows: seq<Row>) | NotStored | AcceptedAlready

  // ---------- What each operation does to the rows, oldest first ----------

  predicate IsAccepted(row: Row, target: Target) {
    row.target == target && row.state == Accepted
  }

  function AcceptedKeys(rows: seq<Row>, target: Target): seq<Key> {
    if rows == [] then []
    else (if IsAccepted(rows[0], target) then [rows[0].key] else []) + AcceptedKeys(rows[1..], target)
  }

  /** Each row by itself: None removes it. */
  function Mapped(rows: seq<Row>, f: Row -> Option<Row>): seq<Row> {
    if rows == [] then []
    else (match f(rows[0]) case None => [] case Some(row) => [row]) + Mapped(rows[1..], f)
  }

  predicate Holds(rows: seq<Row>, target: Target, key: Key) {
    exists row :: row in rows && row.target == target && row.key == key
  }

  predicate IsRefused(rows: seq<Row>, target: Target, key: Key) {
    exists row :: row in rows && row.target == target && row.key == key && row.state == Refused
  }

  function Accepting(target: Target, key: Key): Row -> Option<Row> {
    (row: Row) => Some(if row.target == target && row.key == key then row.(state := Accepted) else row)
  }

  /** Trust on first use: the key stored as accepted - also one refused earlier. */
  function Learned(rows: seq<Row>, target: Target, key: Key, id: nat): seq<Row> {
    if IsRefused(rows, target, key) then Mapped(rows, Accepting(target, key))
    else if Holds(rows, target, key) then rows
    else rows + [Row(id, target, key, Accepted)]
  }

  /** A checked connection to the target showed this key; `first`: nothing was known when it began. */
  function Seen(rows: seq<Row>, target: Target, key: Key, first: bool, id: nat): seq<Row> {
    if first && AcceptedKeys(rows, target) == [] then Learned(rows, target, key, id) else rows
  }

  /** A device showed a key that isn't accepted. */
  function WithRefused(rows: seq<Row>, target: Target, key: Key, id: nat): seq<Row> {
    if Holds(rows, target, key) then rows else rows + [Row(id, target, key, Refused)]
  }

  function Find(rows: seq<Row>, id: nat): Option<Row> {
    if rows == [] then None else if rows[0].id == id then Some(rows[0]) else Find(rows[1..], id)
  }

  function AcceptingRow(chosen: Row, keepOthers: bool): Row -> Option<Row> {
    (row: Row) =>
      if row.id == chosen.id then Some(row.(state := Accepted))
      else if !keepOthers && IsAccepted(row, chosen.target) && row.key.kind == chosen.key.kind then None
      else Some(row)
  }

  /** A refused row becomes accepted; unless they are kept, the target's accepted rows of its kind go. */
  function AdminAccepts(rows: seq<Row>, id: nat, keepOthers: bool): Change {
    match Find(rows, id)
    case None => NotStored
    case Some(row) =>
      if row.state == Accepted then AcceptedAlready else Changed(Mapped(rows, AcceptingRow(row, keepOthers)))
  }

  function Without(id: nat): Row -> Option<Row> {
    (row: Row) => if row.id == id then None else Some(row)
  }

  function WithoutTarget(target: Target): Row -> Option<Row> {
    (row: Row) => if row.target == target then None else Some(row)
  }

  // ---------- In place ----------

  class HostKeyTable {
    var rows: seq<Row>
    var nextId: nat

    ghost predicate Valid()
      reads this
    {
      Sound(rows) && forall row | row in rows :: row.id < nextId
    }

    constructor ()
      ensures Valid() && rows == []
    {
      rows, nextId := [], 0;
    }

    method Learn(target: Target, key: Key) returns (stored: bool)
      requires Valid()
      modifies this
      ensures Valid() && rows == Learned(old(rows), target, key, old(nextId))
      ensures stored <==> IsRefused(old(rows), target, key) || !Holds(old(rows), target, key)
    {
      LearnedIsSound(rows, target, key, nextId);
      stored := false;
      ghost var before := rows;
      if IsRefused(rows, target, key) {
        MappedIs(rows, Accepting(target, key));
        rows := Mapped(rows, Accepting(target, key));
        stored := true;
      } else if !Holds(rows, target, key) {
        rows := rows + [Row(nextId, target, key, Accepted)];
        stored := true;
      }
      nextId := nextId + 1;
    }

    /** What a checked connection saw, recorded - unless nothing may be written now. */
    method RecordSeen(target: Target, key: Key, first: bool, blocked: bool)
      requires Valid()
      modifies this
      ensures Valid() && rows == if blocked then old(rows) else Seen(old(rows), target, key, first, old(nextId))
    {
      if !blocked && first && AcceptedKeys(rows, target) == [] {
        var _ := Learn(target, key);
      }
    }

    method RecordRefused(target: Target, key: Key, blocked: bool)
      requires Valid()
      modifies this
      ensures Valid() && rows == if blocked then old(rows) else WithRefused(old(rows), target, key, old(nextId))
    {
      if !blocked && !Holds(rows, target, key) {
        rows := rows + [Row(nextId, target, key, Refused)];
        nextId := nextId + 1;
      }
    }

    method Accept(id: nat, keepOthers: bool) returns (change: Change)
      requires Valid()
      modifies `rows
      ensures Valid() && change == AdminAccepts(old(rows), id, keepOthers)
      ensures rows == if change.Changed? then change.rows else old(rows)
    {
      var found := Find(rows, id);
      if found.None? {
        return NotStored;
      }
      if found.value.state == Accepted {
        return AcceptedAlready;
      }
      MappedIsSound(rows, AcceptingRow(found.value, keepOthers));
      MappedIs(rows, AcceptingRow(found.value, keepOthers));
      rows := Mapped(rows, AcceptingRow(found.value, keepOthers));
      return Changed(rows);
    }

    method Remove(id: nat) returns (removed: bool)
      requires Valid()
      modifies `rows
      ensures Valid() && removed == Find(old(rows), id).Some? && rows == Mapped(old(rows), Without(id))
    {
      removed := Find(rows, id).Some?;
      MappedIsSound(rows, Without(id));
      MappedIs(rows, Without(id));
      rows := Mapped(rows, Without(id));
    }

    method Reset(target: Target) returns (removed: nat)
      requires Valid()
      modifies `rows
      ensures Valid() && rows == Mapped(old(rows), WithoutTarget(target))
      ensures forall row :: row in rows <==> row in old(rows) && row.target != target
      ensures removed == |old(rows)| - |rows|
    {
      MappedIsSound(rows, WithoutTarget(target));
      MappedIs(rows, WithoutTarget(target));
      MappedIsShorter(rows, WithoutTarget(target));
      removed := |rows| - |Mapped(rows, WithoutTarget(target))|;
      rows := Mapped(rows, WithoutTarget(target));
    }
  }

  // ---------- Rows stay sound ----------

  /** A target's key is stored once, under an id of its own. */
  ghost predicate Sound(rows: seq<Row>) {
    forall i, j | 0 <= i < j < |rows| :: !Clash(rows[i], rows[j])
  }

  predicate Clash(a: Row, b: Row) {
    a.id == b.id || (a.target == b.target && a.key == b.key)
  }

  lemma SoundSplits(row: Row, rest: seq<Row>)
    ensures Sound([row] + rest) <==> Sound(rest) && forall other | other in rest :: !Clash(row, other)
  {
    var rows := [row] + rest;
    if Sound(rows) {
      forall other | other in rest ensures !Clash(row, other) {
        var k :| 0 <= k < |rest| && rest[k] == other;
        assert !Clash(rows[0], rows[k + 1]);
      }
      forall i, j | 0 <= i < j < |rest| ensures !Clash(rest[i], rest[j]) {
        assert !Clash(rows[i + 1], rows[j + 1]);
      }
    }
  }

  /** Only a row's state changes. */
  ghost predicate KeepsRow(f: Row -> Option<Row>) {
    forall row: Row :: f(row).Some? ==> f(row).value == row.(state := f(row).value.state)
  }

  lemma {:induction false} MappedIs(rows: seq<Row>, f: Row -> Option<Row>)
    requires KeepsRow(f)
    ensures forall r :: r in Mapped(rows, f) <==> exists row :: row in rows && f(row) == Some(r)
    ensures forall r | r in Mapped(rows, f) :: exists row :: row in rows && row.id == r.id && row.target == r.target && row.key == r.key
  {
    if rows != [] {
      assert rows == [rows[0]] + rows[1..];
      MappedIs(rows[1..], f);
      forall r ensures r in Mapped(rows, f) <==> exists row :: row in rows && f(row) == Some(r) {
        if f(rows[0]) == Some(r) {
          assert rows[0] in rows;
        }
        if r in Mapped(rows[1..], f) {
          var row :| row in rows[1..] && f(row) == Some(r);
          assert row in rows;
        }
      }
    }
  }

  lemma MappedFrom(rows: seq<Row>, f: Row -> Option<Row>, r: Row) returns (row: Row)
    requires KeepsRow(f) && r in Mapped(rows, f)
    ensures row in rows && f(row) == Some(r)
  {
    MappedIs(rows, f);
    row :| row in rows && f(row) == Some(r);
  }

  lemma MappedHas(rows: seq<Row>, f: Row -> Option<Row>, row: Row)
    requires KeepsRow(f) && row in rows && f(row).Some?
    ensures f(row).value in Mapped(rows, f)
  {
    MappedIs(rows, f);
  }

  lemma {:induction false} MappedIsShorter(rows: seq<Row>, f: Row -> Option<Row>)
    ensures |Mapped(rows, f)| <= |rows|
  {
    if rows != [] {
      MappedIsShorter(rows[1..], f);
    }
  }

  lemma {:induction false} MappedIsSound(rows: seq<Row>, f: Row -> Option<Row>)
    requires Sound(rows) && KeepsRow(f)
    ensures Sound(Mapped(rows, f))
  {
    if rows != [] {
      var rest := Mapped(rows[1..], f);
      assert rows == [rows[0]] + rows[1..];
      SoundSplits(rows[0], rows[1..]);
      MappedIsSound(rows[1..], f);
      hide Sound;
      if f(rows[0]).Some? {
        MappedIs(rows[1..], f);
        forall other | other in rest ensures !Clash(f(rows[0]).value, other) {
          var row :| row in rows[1..] && row.id == other.id && row.target == other.target && row.key == other.key;
          assert !Clash(rows[0], row);
        }
        SoundSplits(f(rows[0]).value, rest);
      } else {
        assert Mapped(rows, f) == rest;
      }
    }
  }

  lemma LearnedIsSound(rows: seq<Row>, target: Target, key: Key, id: nat)
    requires Sound(rows) && forall row | row in rows :: row.id != id
    ensures Sound(Learned(rows, target, key, id))
  {
    MappedIsSound(rows, Accepting(target, key));
  }

  // ---------- Trust on first use ----------

  datatype Op =
    | Saw(target: Target, key: Key, first: bool)
    | Refuses(target: Target, key: Key)
    | Accept(id: nat, keepOthers: bool)           // an admin's
    | Remove(id: nat)
    | Reset(target: Target)

  datatype State = State(rows: seq<Row>, nextId: nat)

  predicate IsAdmins(op: Op) {
    op.Accept? || op.Remove? || op.Reset?
  }

  function Apply(s: State, op: Op): State {
    match op
    case Saw(target, key, first) => State(Seen(s.rows, target, key, first, s.nextId), s.nextId + 1)
    case Refuses(target, key) => State(WithRefused(s.rows, target, key, s.nextId), s.nextId + 1)
    case Accept(id, keepOthers) =>
      var change := AdminAccepts(s.rows, id, keepOthers);
      if change.Changed? then s.(rows := change.rows) else s
    case Remove(id) => s.(rows := Mapped(s.rows, Without(id)))
    case Reset(target) => s.(rows := Mapped(s.rows, WithoutTarget(target)))
  }

  function After(s: State, ops: seq<Op>): State
    decreases |ops|
  {
    if ops == [] then s else After(Apply(s, ops[0]), ops[1..])
  }

  ghost predicate Valid(s: State) {
    Sound(s.rows) && forall row | row in s.rows :: row.id < s.nextId
  }

  lemma ApplyKeepsValid(s: State, op: Op)
    requires Valid(s)
    ensures Valid(Apply(s, op))
  {
    hide IsRefused;
    match op {
      case Saw(target, key, _) =>
        LearnedIsSound(s.rows, target, key, s.nextId);
        MappedIs(s.rows, Accepting(target, key));
      case Refuses(target, key) =>
      case Accept(id, keepOthers) =>
        var found := Find(s.rows, id);
        if found.Some? {
          MappedIsSound(s.rows, AcceptingRow(found.value, keepOthers));
          MappedIs(s.rows, AcceptingRow(found.value, keepOthers));
        }
      case Remove(id) =>
        MappedIsSound(s.rows, Without(id));
        MappedIs(s.rows, Without(id));
      case Reset(target) =>
        MappedIsSound(s.rows, WithoutTarget(target));
        MappedIs(s.rows, WithoutTarget(target));
    }
  }

  lemma {:induction false} AcceptedJoin(a: seq<Row>, b: seq<Row>, target: Target)
    ensures AcceptedKeys(a + b, target) == AcceptedKeys(a, target) + AcceptedKeys(b, target)
  {
    hide IsAccepted;
    if a == [] {
      assert a + b == b;
    } else {
      assert (a + b)[1..] == a[1..] + b;
      AcceptedJoin(a[1..], b, target);
    }
  }

  lemma {:induction false} AcceptedAre(rows: seq<Row>, target: Target)
    ensures forall key :: key in AcceptedKeys(rows, target) <==> exists row :: row in rows && IsAccepted(row, target) && row.key == key
  {
    if rows != [] {
      assert rows == [rows[0]] + rows[1..];
      AcceptedAre(rows[1..], target);
      if IsAccepted(rows[0], target) {
        assert rows[0] in rows;
      }
    }
  }

  ghost predicate HasAccepted(rows: seq<Row>, target: Target, key: Key) {
    exists row :: row in rows && IsAccepted(row, target) && row.key == key
  }

  /** Rows that keep their accepted keys of a target as they are keep the list of them. */
  lemma {:induction false} AcceptedUntouched(rows: seq<Row>, f: Row -> Option<Row>, target: Target)
    requires KeepsRow(f)
    requires forall row | row in rows ::
               if IsAccepted(row, target) then f(row) == Some(row) else f(row).None? || !IsAccepted(f(row).value, target)
    ensures AcceptedKeys(Mapped(rows, f), target) == AcceptedKeys(rows, target)
  {
    if rows != [] {
      var head := if f(rows[0]).Some? then [f(rows[0]).value] else [];
      assert rows[0] in rows && forall row | row in rows[1..] :: row in rows;
      AcceptedUntouched(rows[1..], f, target);
      assert Mapped(rows, f) == head + Mapped(rows[1..], f);
      AcceptedJoin(head, Mapped(rows[1..], f), target);
    }
  }

  /** Where a target accepts none yet, accepting a key it holds makes that its only one. */
  lemma {:induction false} AcceptedAlone(rows: seq<Row>, target: Target, key: Key)
    requires Sound(rows) && AcceptedKeys(rows, target) == [] && Holds(rows, target, key)
    ensures AcceptedKeys(Mapped(rows, Accepting(target, key)), target) == [key]
  {
    var f := Accepting(target, key);
    var head, rest := rows[0], rows[1..];
    assert rows == [head] + rest;
    SoundSplits(head, rest);
    if head.target == target && head.key == key {
      forall row | row in rest ensures f(row) == Some(row) {
        assert !Clash(head, row);
      }
      AcceptedUntouched(rest, f, target) by {
        AcceptedAre(rows, target);
      }
    } else {
      var row :| row in rows && row.target == target && row.key == key;
      assert row in rest;
      AcceptedAlone(rest, target, key);
    }
  }

  lemma HeldIsRefused(rows: seq<Row>, target: Target, key: Key)
    requires AcceptedKeys(rows, target) == [] && Holds(rows, target, key)
    ensures IsRefused(rows, target, key)
  {
    AcceptedAre(rows, target);
    var row :| row in rows && row.target == target && row.key == key;
    assert row.key !in AcceptedKeys(rows, target);
  }

  lemma FirstIsLearned(rows: seq<Row>, target: Target, key: Key, id: nat, other: Target)
    requires Sound(rows) && AcceptedKeys(rows, target) == []
    ensures AcceptedKeys(Learned(rows, target, key, id), target) == [key]
    ensures other != target ==> AcceptedKeys(Learned(rows, target, key, id), other) == AcceptedKeys(rows, other)
  {
    if Holds(rows, target, key) {
      HeldIsRefused(rows, target, key);
      AcceptedAlone(rows, target, key);
      if other != target {
        AcceptedUntouched(rows, Accepting(target, key), other);
      }
    } else {
      AcceptedJoin(rows, [Row(id, target, key, Accepted)], target);
      AcceptedJoin(rows, [Row(id, target, key, Accepted)], other);
    }
  }

  /** Without an admin a key is accepted for a target only when none was - a first connection's, and that key alone. */
  lemma OnlyFirstUseIsTrusted(s: State, op: Op, target: Target)
    requires Valid(s) && !IsAdmins(op)
    ensures var before, after := AcceptedKeys(s.rows, target), AcceptedKeys(Apply(s, op).rows, target);
            after == before || (before == [] && op.Saw? && op.first && op.target == target && after == [op.key])
  {
    match op {
      case Saw(t, key, first) =>
        if first && AcceptedKeys(s.rows, t) == [] {
          FirstIsLearned(s.rows, t, key, s.nextId, target);
        }
      case Refuses(t, key) =>
        AcceptedJoin(s.rows, [Row(s.nextId, t, key, Refused)], target);
    }
  }

  /** Over any run of connections: once a target has accepted keys, only an admin changes them. */
  lemma {:induction false} FirstKeyStays(s: State, ops: seq<Op>, target: Target)
    requires Valid(s) && forall op | op in ops :: !IsAdmins(op)
    ensures var before, after := AcceptedKeys(s.rows, target), AcceptedKeys(After(s, ops).rows, target);
            if before != [] then after == before
            else after == [] || exists op :: op in ops && op.Saw? && op.first && op.target == target && after == [op.key]
    decreases |ops|
  {
    if ops != [] {
      assert ops == [ops[0]] + ops[1..];
      ApplyKeepsValid(s, ops[0]);
      OnlyFirstUseIsTrusted(s, ops[0], target);
      FirstKeyStays(Apply(s, ops[0]), ops[1..], target);
      hide Apply;
      hide AcceptedKeys;
    }
  }

  /** An admin's accept adds the key it names to its target's, without the others of that type unless they are kept - and
      leaves every other target alone. */
  lemma AcceptIsExact(s: State, id: nat, keepOthers: bool, target: Target, key: Key)
    requires Valid(s) && AdminAccepts(s.rows, id, keepOthers).Changed?
    ensures var row, after := Find(s.rows, id).value, AcceptedKeys(Apply(s, Accept(id, keepOthers)).rows, target);
            key in after <==>
              if target == row.target && key == row.key then true
              else key in AcceptedKeys(s.rows, target) && (keepOthers || target != row.target || key.kind != row.key.kind)
  {
    var chosen := Find(s.rows, id).value;
    var f := AcceptingRow(chosen, keepOthers);
    FindIs(s.rows, id);
    AcceptedIff(Mapped(s.rows, f), target, key);
    AcceptedIff(s.rows, target, key);
    hide AcceptedKeys;
    hide Mapped;
    hide Find;
    if target == chosen.target && key == chosen.key {
      MappedHas(s.rows, f, chosen);
    } else {
      hide HasAccepted;
      OthersAccepted(s.rows, chosen, keepOthers, target, key);
    }
  }

  lemma AcceptedIff(rows: seq<Row>, target: Target, key: Key)
    ensures key in AcceptedKeys(rows, target) <==> HasAccepted(rows, target, key)
  {
    AcceptedAre(rows, target);
  }

  /** The accepted keys but the one an admin chose. */
  lemma OthersAccepted(rows: seq<Row>, chosen: Row, keepOthers: bool, target: Target, key: Key)
    requires Sound(rows) && chosen in rows && !(target == chosen.target && key == chosen.key)
    ensures HasAccepted(Mapped(rows, AcceptingRow(chosen, keepOthers)), target, key)
       <==> HasAccepted(rows, target, key) && (keepOthers || target != chosen.target || key.kind != chosen.key.kind)
  {
    var f := AcceptingRow(chosen, keepOthers);
    if HasAccepted(Mapped(rows, f), target, key) {
      OtherWasAccepted(rows, chosen, keepOthers, target, key);
    } else if HasAccepted(rows, target, key) && (keepOthers || target != chosen.target || key.kind != chosen.key.kind) {
      OtherStaysAccepted(rows, chosen, keepOthers, target, key);
    }
  }

  lemma OtherWasAccepted(rows: seq<Row>, chosen: Row, keepOthers: bool, target: Target, key: Key)
    requires Sound(rows) && chosen in rows && !(target == chosen.target && key == chosen.key)
    requires HasAccepted(Mapped(rows, AcceptingRow(chosen, keepOthers)), target, key)
    ensures HasAccepted(rows, target, key) && (keepOthers || target != chosen.target || key.kind != chosen.key.kind)
  {
    var f := AcceptingRow(chosen, keepOthers);
    hide Mapped;
    var row :| row in Mapped(rows, f) && IsAccepted(row, target) && row.key == key;
    var was := MappedFrom(rows, f, row);
    if was.id == chosen.id {
      SameId(rows, was, chosen);
    }
    hide Sound;
  }

  lemma OtherStaysAccepted(rows: seq<Row>, chosen: Row, keepOthers: bool, target: Target, key: Key)
    requires Sound(rows) && chosen in rows && !(target == chosen.target && key == chosen.key)
    requires HasAccepted(rows, target, key) && (keepOthers || target != chosen.target || key.kind != chosen.key.kind)
    ensures HasAccepted(Mapped(rows, AcceptingRow(chosen, keepOthers)), target, key)
  {
    var f := AcceptingRow(chosen, keepOthers);
    hide Mapped;
    var row :| row in rows && IsAccepted(row, target) && row.key == key;
    if row.id == chosen.id {
      SameId(rows, row, chosen);
    }
    hide Sound;
    assert f(row) == Some(row);
    MappedHas(rows, f, row);
  }

  lemma {:induction false} FindIs(rows: seq<Row>, id: nat)
    ensures Find(rows, id).Some? ==> Find(rows, id).value in rows && Find(rows, id).value.id == id
  {
    if rows != [] && rows[0].id != id {
      FindIs(rows[1..], id);
    }
  }

  lemma SameId(rows: seq<Row>, a: Row, b: Row)
    requires Sound(rows) && a in rows && b in rows && a.id == b.id
    ensures a == b
  {
    var i :| 0 <= i < |rows| && rows[i] == a;
    var j :| 0 <= j < |rows| && rows[j] == b;
  }

  // ---------- Row by row ----------

  /** The oldest row first: each has a greater id than the one before. */
  ghost predicate ByAge(rows: seq<Row>) {
    forall i, j | 0 <= i < j < |rows| :: rows[i].id < rows[j].id
  }

  lemma AgeSplits(row: Row, rest: seq<Row>)
    ensures ByAge([row] + rest) <==> ByAge(rest) && forall other | other in rest :: row.id < other.id
  {
    var rows := [row] + rest;
    if ByAge(rows) {
      forall other | other in rest ensures row.id < other.id {
        var k :| 0 <= k < |rest| && rest[k] == other;
        assert rows[0].id < rows[k + 1].id;
      }
      forall i, j | 0 <= i < j < |rest| ensures rest[i].id < rest[j].id {
        assert rows[i + 1].id < rows[j + 1].id;
      }
    }
  }

  lemma {:induction false} MappedByAge(rows: seq<Row>, f: Row -> Option<Row>)
    requires ByAge(rows) && KeepsRow(f)
    ensures ByAge(Mapped(rows, f))
  {
    if rows != [] {
      assert rows == [rows[0]] + rows[1..];
      AgeSplits(rows[0], rows[1..]);
      MappedByAge(rows[1..], f);
      MappedIs(rows[1..], f);
      hide ByAge;
      if f(rows[0]).Some? {
        AgeSplits(f(rows[0]).value, Mapped(rows[1..], f));
      } else {
        assert Mapped(rows, f) == Mapped(rows[1..], f);
      }
    }
  }

  /** The rows stay in the order of their ids. */
  lemma ApplyKeepsAge(s: State, op: Op)
    requires Valid(s) && ByAge(s.rows)
    ensures ByAge(Apply(s, op).rows)
  {
    match op {
      case Saw(target, key, _) => MappedByAge(s.rows, Accepting(target, key));
      case Refuses(_, _) =>
      case Accept(id, keepOthers) =>
        var found := Find(s.rows, id);
        if found.Some? {
          MappedByAge(s.rows, AcceptingRow(found.value, keepOthers));
        }
      case Remove(id) => MappedByAge(s.rows, Without(id));
      case Reset(target) => MappedByAge(s.rows, WithoutTarget(target));
    }
    hide Mapped;
    hide Find;
    hide IsRefused;
    hide AcceptedKeys;
  }

  ghost predicate HasRow(rows: seq<Row>, id: nat, target: Target, key: Key) {
    exists row :: row in rows && row.id == id && row.target == target && row.key == key
  }

  /** A row a learned key leaves: the key's own, accepted; any other as it was. */
  ghost predicate IsLearnedRow(s: State, target: Target, key: Key, row: Row) {
    if row.target == target && row.key == key then
      row.state == Accepted && (if Holds(s.rows, target, key) then HasRow(s.rows, row.id, target, key) else row.id == s.nextId)
    else row in s.rows
  }

  /** Row by row, what an operation leaves. */
  ghost predicate IsLeft(s: State, op: Op, row: Row) {
    match op
    case Saw(target, key, first) =>
      if first && (forall other | other in s.rows && other.target == target :: other.state == Refused)
      then IsLearnedRow(s, target, key, row) else row in s.rows
    case Refuses(target, key) =>
      row in s.rows || (!Holds(s.rows, target, key) && row == Row(s.nextId, target, key, Refused))
    case Accept(id, keepOthers) =>
      if exists chosen :: chosen in s.rows && chosen.id == id && chosen.state == Refused then
        exists chosen :: chosen in s.rows && chosen.id == id && chosen.state == Refused && IsAcceptedRow(s.rows, chosen, keepOthers, row)
      else row in s.rows
    case Remove(id) => row in s.rows && row.id != id
    case Reset(target) => row in s.rows && row.target != target
  }

  ghost predicate IsAcceptedRow(rows: seq<Row>, chosen: Row, keepOthers: bool, row: Row) {
    if row.id == chosen.id then row == chosen.(state := Accepted)
    else
      && row in rows
      && (keepOthers || row.state == Refused || row.target != chosen.target || row.key.kind != chosen.key.kind)
  }

  lemma {:induction false} FoundIff(rows: seq<Row>, id: nat)
    ensures Find(rows, id).Some? <==> exists row :: row in rows && row.id == id
  {
    if rows != [] && rows[0].id != id {
      FoundIff(rows[1..], id);
      assert rows == [rows[0]] + rows[1..];
    } else if rows != [] {
      assert rows[0] in rows;
    }
  }

  lemma NoneAccepted(rows: seq<Row>, target: Target)
    ensures AcceptedKeys(rows, target) == [] <==> forall row | row in rows && row.target == target :: row.state == Refused
  {
    AcceptedAre(rows, target);
    if AcceptedKeys(rows, target) != [] {
      assert AcceptedKeys(rows, target)[0] in AcceptedKeys(rows, target);
    }
    if row :| row in rows && row.target == target && row.state == Accepted {
      assert row.key in AcceptedKeys(rows, target);
    }
  }

  lemma LearnedLeaves(s: State, target: Target, key: Key, row: Row)
    requires Valid(s) && forall other | other in s.rows && other.target == target :: other.state == Refused
    ensures row in Learned(s.rows, target, key, s.nextId) <==> IsLearnedRow(s, target, key, row)
  {
    var f := Accepting(target, key);
    MappedIs(s.rows, f);
    hide Mapped;
    if Holds(s.rows, target, key) {
      assert IsRefused(s.rows, target, key);
      if row in Mapped(s.rows, f) {
        var was := MappedFrom(s.rows, f, row);
      }
      if IsLearnedRow(s, target, key, row) {
        if row.target == target && row.key == key {
          var was :| was in s.rows && was.id == row.id && was.target == target && was.key == key;
          assert f(was) == Some(row);
        } else {
          assert f(row) == Some(row);
        }
      }
    } else {
      assert !IsRefused(s.rows, target, key);
    }
  }

  lemma AcceptLeaves(s: State, chosen: Row, keepOthers: bool, row: Row)
    requires Valid(s) && chosen in s.rows && chosen.state == Refused
    ensures row in Mapped(s.rows, AcceptingRow(chosen, keepOthers)) <==> IsAcceptedRow(s.rows, chosen, keepOthers, row)
  {
    var f := AcceptingRow(chosen, keepOthers);
    hide Mapped;
    if row in Mapped(s.rows, f) {
      var was := MappedFrom(s.rows, f, row);
      if was.id == chosen.id {
        SameId(s.rows, was, chosen);
      }
    }
    if IsAcceptedRow(s.rows, chosen, keepOthers, row) {
      MappedHas(s.rows, f, if row.id == chosen.id then chosen else row);
    }
    hide Sound;
  }

  lemma DroppedLeaves(rows: seq<Row>, f: Row -> Option<Row>, drop: Row -> bool, row: Row)
    requires forall r: Row :: f(r) == if drop(r) then None else Some(r)
    ensures row in Mapped(rows, f) <==> row in rows && !drop(row)
  {
    MappedIs(rows, f);
    hide Mapped;
    if row in rows && !drop(row) {
      assert f(row) == Some(row);
    }
  }

  /** Each operation leaves exactly the rows it should: whatever the table, and whatever the row. */
  lemma RowsLeft(s: State, op: Op, row: Row)
    requires Valid(s)
    ensures row in Apply(s, op).rows <==> IsLeft(s, op, row)
  {
    hide Mapped;
    hide AcceptedKeys;
    hide Learned;
    hide IsLearnedRow;
    hide IsAcceptedRow;
    hide Find;
    match op {
      case Saw(target, key, first) =>
        NoneAccepted(s.rows, target);
        if AcceptedKeys(s.rows, target) == [] {
          LearnedLeaves(s, target, key, row);
        }
      case Refuses(_, _) =>
      case Accept(id, keepOthers) =>
        FoundIff(s.rows, id);
        FindIs(s.rows, id);
        var found := Find(s.rows, id);
        if found.Some? {
          forall other | other in s.rows && other.id == id ensures other == found.value {
            SameId(s.rows, other, found.value);
          }
          if found.value.state == Refused {
            AcceptLeaves(s, found.value, keepOthers, row);
          }
        }
      case Remove(id) => DroppedLeaves(s.rows, Without(id), (r: Row) => r.id == id, row);
      case Reset(target) => DroppedLeaves(s.rows, WithoutTarget(target), (r: Row) => r.target == target, row);
    }
    hide Sound;
  }

  // ---------- First connections at once ----------

  /** A first connection records in two steps: it finds no accepted key, and then stores its own. `found`: those between the
      two; `stored`: the keys stored so far, in turn. */
  datatype Racing = Racing(rows: seq<Row>, nextId: nat, found: map<nat, (Target, Key)>, stored: seq<(Target, Key)>)

  datatype RaceStep = Finds(connection: nat, target: Target, key: Key) | Stores(connection: nat)

  predicate CanStep(s: Racing, step: RaceStep) {
    match step
    case Finds(connection, target, _) => connection !in s.found && AcceptedKeys(s.rows, target) == []
    case Stores(connection) => connection in s.found
  }

  function Raced(s: Racing, step: RaceStep): Racing
    requires CanStep(s, step)
  {
    match step
    case Finds(connection, target, key) => s.(found := s.found[connection := (target, key)])
    case Stores(connection) =>
      var (target, key) := s.found[connection];
      Racing(Learned(s.rows, target, key, s.nextId), s.nextId + 1, s.found - {connection}, s.stored + [(target, key)])
  }

  predicate ValidRace(s: Racing, steps: seq<RaceStep>)
    decreases |steps|
  {
    steps == [] || (CanStep(s, steps[0]) && ValidRace(Raced(s, steps[0]), steps[1..]))
  }

  function AfterRace(s: Racing, steps: seq<RaceStep>): Racing
    requires ValidRace(s, steps)
    decreases |steps|
  {
    if steps == [] then s else AfterRace(Raced(s, steps[0]), steps[1..])
  }

  /** The two steps one right after the other are a record as serialised. */
  lemma SerialRaceIsSaw(s: State, target: Target, key: Key, connection: nat)
    requires AcceptedKeys(s.rows, target) == []
    ensures var race := Racing(s.rows, s.nextId, map[], []);
            && CanStep(race, Finds(connection, target, key))
            && CanStep(Raced(race, Finds(connection, target, key)), Stores(connection))
            && var after := Raced(Raced(race, Finds(connection, target, key)), Stores(connection));
            after.rows == Apply(s, Saw(target, key, true)).rows && after.nextId == Apply(s, Saw(target, key, true)).nextId
  {
  }

  /** A key learned is accepted, and nothing else changes. */
  lemma LearnedAdds(rows: seq<Row>, target: Target, key: Key, id: nat, t: Target, k: Key)
    ensures k in AcceptedKeys(Learned(rows, target, key, id), t) <==> k in AcceptedKeys(rows, t) || (t == target && k == key)
  {
    var f := Accepting(target, key);
    AcceptedAre(rows, t);
    if IsRefused(rows, target, key) {
      MappedIs(rows, f);
      AcceptedAre(Mapped(rows, f), t);
      AcceptingAdds(rows, target, key, t, k);
    } else if Holds(rows, target, key) {
      HeldIsAccepted(rows, target, key);
      AcceptedAre(rows, target);
    } else {
      AcceptedJoin(rows, [Row(id, target, key, Accepted)], t);
    }
  }

  lemma HeldIsAccepted(rows: seq<Row>, target: Target, key: Key)
    requires Holds(rows, target, key) && !IsRefused(rows, target, key)
    ensures key in AcceptedKeys(rows, target)
  {
    AcceptedAre(rows, target);
    var row :| row in rows && row.target == target && row.key == key;
    assert IsAccepted(row, target);
  }

  lemma AcceptingAdds(rows: seq<Row>, target: Target, key: Key, t: Target, k: Key)
    requires IsRefused(rows, target, key)
    ensures HasAccepted(Mapped(rows, Accepting(target, key)), t, k) <==> HasAccepted(rows, t, k) || (t == target && k == key)
  {
    var f := Accepting(target, key);
    hide Mapped;
    if HasAccepted(rows, t, k) {
      var row :| row in rows && IsAccepted(row, t) && row.key == k;
      assert f(row) == Some(row);
      MappedHas(rows, f, row);
    }
    if t == target && k == key {
      var row :| row in rows && row.target == target && row.key == key && row.state == Refused;
      MappedHas(rows, f, row);
    }
    if HasAccepted(Mapped(rows, f), t, k) {
      var row :| row in Mapped(rows, f) && IsAccepted(row, t) && row.key == k;
      var was := MappedFrom(rows, f, row);
      assert was == row || (t == target && k == key);
    }
  }

  /** Without an admin, what a target accepts is what it accepted and what was stored for it since. */
  lemma {:induction false} AcceptedAreStored(s: Racing, steps: seq<RaceStep>, target: Target, key: Key)
    requires ValidRace(s, steps)
    ensures var t := AfterRace(s, steps);
            && s.stored <= t.stored
            && (key in AcceptedKeys(t.rows, target) <==>
                  key in AcceptedKeys(s.rows, target) || (target, key) in t.stored[|s.stored|..])
    decreases |steps|
  {
    hide Learned;
    hide AcceptedKeys;
    if steps != [] {
      var u := Raced(s, steps[0]);
      AcceptedAreStored(u, steps[1..], target, key);
      var t := AfterRace(s, steps);
      if steps[0].Stores? {
        var (on, k) := s.found[steps[0].connection];
        LearnedAdds(s.rows, on, k, s.nextId, target, key);
        assert t.stored[|s.stored|..] == [(on, k)] + t.stored[|u.stored|..];
      }
    }
  }

  /** A connection that found no key, and stores its own after others' steps, is the second to be trusted - another key is accepted
      with it - exactly if another key of its target was stored between its two steps. */
  lemma SecondIsTrustedIff(s: Racing, steps: seq<RaceStep>, connection: nat, target: Target, key: Key)
    requires CanStep(s, Finds(connection, target, key)) && ValidRace(Raced(s, Finds(connection, target, key)), steps)
    requires CanStep(AfterRace(Raced(s, Finds(connection, target, key)), steps), Stores(connection))
    requires forall step | step in steps :: step != Stores(connection)
    ensures var u := AfterRace(Raced(s, Finds(connection, target, key)), steps);
            var after := AcceptedKeys(Raced(u, Stores(connection)).rows, target);
            && key in after && s.stored <= u.stored
            && ((exists other :: other in after && other != key)
                <==> exists other :: other != key && (target, other) in u.stored[|s.stored|..])
  {
    var first := Raced(s, Finds(connection, target, key));
    var u := AfterRace(first, steps);
    StaysFound(first, steps, connection);
    AcceptedAreStored(first, steps, target, key);
    LearnedAdds(u.rows, target, key, u.nextId, target, key);
    forall other | other != key
      ensures other in AcceptedKeys(Raced(u, Stores(connection)).rows, target) <==> (target, other) in u.stored[|s.stored|..]
    {
      AcceptedAreStored(first, steps, target, other);
      LearnedAdds(u.rows, target, key, u.nextId, target, other);
    }
  }

  lemma {:induction false} StaysFound(s: Racing, steps: seq<RaceStep>, connection: nat)
    requires ValidRace(s, steps) && connection in s.found && forall step | step in steps :: step != Stores(connection)
    ensures connection in AfterRace(s, steps).found && AfterRace(s, steps).found[connection] == s.found[connection]
    decreases |steps|
  {
    hide Learned;
    if steps != [] {
      assert steps[0] in steps && forall step | step in steps[1..] :: step in steps;
      StaysFound(Raced(s, steps[0]), steps[1..], connection);
    }
  }
}
