// The in-memory registry of live charger connections: one line per charger, its socket, and one
// transaction slot per connector.
//
// A charger's ocppId and its document are one to one, so one id stands for both. A JavaScript Map
// iterates in insertion order, so a line's slots are a sequence.

module Registry {
  import opened Options

  type Id = nat
  type Socket = nat

  datatype Transaction = Transaction(transactionId: nat, connector: int, idTag: string, meterStart: real)

  datatype Line = Line(socket: Socket, heardAt: int, slots: seq<Transaction>)

  type Lines = map<Id, Line>

  /* ----------------------------------- slots --------------------------------- */

  function Slot(slots: seq<Transaction>, connector: int): (found: Option<Transaction>)
    ensures found.Some? ==> found.value in slots && found.value.connector == connector
    ensures found.None? ==> forall i :: 0 <= i < |slots| ==> slots[i].connector != connector
  {
    if slots == [] then None
    else if slots[0].connector == connector then Some(slots[0])
    else Slot(slots[1..], connector)
  }

  // Map.set keeps the place of an existing key and appends a new one.
  function SetSlot(slots: seq<Transaction>, t: Transaction): seq<Transaction> {
    if slots == [] then [t]
    else if slots[0].connector == t.connector then [t] + slots[1..]
    else [slots[0]] + SetSlot(slots[1..], t)
  }

  function ClearSlot(slots: seq<Transaction>, connector: int): seq<Transaction> {
    if slots == [] then []
    else if slots[0].connector == connector then ClearSlot(slots[1..], connector)
    else [slots[0]] + ClearSlot(slots[1..], connector)
  }

  // findTransactionById: the first slot in iteration order that holds it.
  function FindTransaction(slots: seq<Transaction>, transactionId: nat): (found: Option<Transaction>)
    ensures found.Some? ==> found.value in slots && found.value.transactionId == transactionId
    ensures found.None? ==> forall i :: 0 <= i < |slots| ==> slots[i].transactionId != transactionId
  {
    if slots == [] then None
    else if slots[0].transactionId == transactionId then Some(slots[0])
    else FindTransaction(slots[1..], transactionId)
  }

  // Setting or clearing one connector's slot leaves every other slot as it was.
  lemma {:induction false} SetOneSlot(slots: seq<Transaction>, t: Transaction, connector: int)
    ensures Slot(SetSlot(slots, t), connector) == if connector == t.connector then Some(t) else Slot(slots, connector)
  {
    if slots != [] && slots[0].connector != t.connector {
      SetOneSlot(slots[1..], t, connector);
    }
  }

  lemma {:induction false} ClearOneSlot(slots: seq<Transaction>, cleared: int, connector: int)
    ensures Slot(ClearSlot(slots, cleared), connector) == if connector == cleared then None else Slot(slots, connector)
  {
    if slots != [] {
      ClearOneSlot(slots[1..], cleared, connector);
    }
  }

  lemma {:induction false} SetKeeps(slots: seq<Transaction>, t: Transaction)
    ensures forall u :: u in SetSlot(slots, t) ==> u == t || u in slots
  {
    if slots != [] && slots[0].connector != t.connector {
      SetKeeps(slots[1..], t);
    }
  }

  lemma {:induction false} ClearKeeps(slots: seq<Transaction>, connector: int)
    ensures forall u :: u in ClearSlot(slots, connector) ==> u in slots
  {
    if slots != [] {
      ClearKeeps(slots[1..], connector);
    }
  }

  /* --------------------------------- operations ------------------------------ */

  datatype Op =
    | Register(charger: Id, socket: Socket, now: int)
    | Remove(charger: Id, socket: Socket)
    | Touch(charger: Id, now: int)
    | Put(charger: Id, transaction: Transaction)
    | Drop(charger: Id, connector: int)

  function Apply(lines: Lines, op: Op): Lines {
    match op
    case Register(c, socket, now) => lines[c := Line(socket, now, [])]
    case Remove(c, socket) => if c in lines && lines[c].socket == socket then lines - {c} else lines
    case Touch(c, now) => if c in lines then lines[c := lines[c].(heardAt := now)] else lines
    case Put(c, t) => if c in lines then lines[c := lines[c].(slots := SetSlot(lines[c].slots, t))] else lines
    case Drop(c, n) => if c in lines then lines[c := lines[c].(slots := ClearSlot(lines[c].slots, n))] else lines
  }

  function History(ops: seq<Op>): Lines {
    if ops == [] then map[] else Apply(History(ops[..|ops| - 1]), ops[|ops| - 1])
  }

  function SlotOn(lines: Lines, charger: Id, connector: int): Option<Transaction> {
    if charger in lines then Slot(lines[charger].slots, connector) else None
  }

  /* ----------------------------------- history ------------------------------- */

  // The k-th operation registered this charger, and its socket has been neither replaced nor removed.
  predicate Current(ops: seq<Op>, k: nat, charger: Id) {
    && k < |ops| && ops[k].Register? && ops[k].charger == charger
    && forall j :: k < j < |ops| ==>
         !(ops[j].Register? && ops[j].charger == charger)
         && !(ops[j].Remove? && ops[j].charger == charger && ops[j].socket == ops[k].socket)
  }

  // The m-th operation is the last to touch this connector's slot.
  predicate LastPut(ops: seq<Op>, m: nat, charger: Id, connector: int) {
    && m < |ops| && ops[m].Put? && ops[m].charger == charger && ops[m].transaction.connector == connector
    && forall j :: m < j < |ops| ==>
         !(ops[j].Put? && ops[j].charger == charger && ops[j].transaction.connector == connector)
         && !(ops[j].Drop? && ops[j].charger == charger && ops[j].connector == connector)
  }

  lemma CurrentBefore(ops: seq<Op>, k: nat, charger: Id)
    requires ops != [] && Current(ops, k, charger) && k < |ops| - 1
    ensures Current(ops[..|ops| - 1], k, charger)
  {
  }

  lemma CurrentAfter(ops: seq<Op>, k: nat, charger: Id)
    requires ops != [] && Current(ops[..|ops| - 1], k, charger)
    requires var op := ops[|ops| - 1];
             !(op.Register? && op.charger == charger)
               && !(op.Remove? && op.charger == charger && op.socket == ops[k].socket)
    ensures Current(ops, k, charger)
  {
  }

  // The registry holds a charger exactly when its most recently registered socket has not itself
  // been removed; and it is that socket that it holds.
  lemma {:induction false} LineIsLastRegistered(ops: seq<Op>, charger: Id)
    ensures charger in History(ops) <==> exists k: nat :: Current(ops, k, charger)
    ensures forall k: nat :: Current(ops, k, charger) ==>
              charger in History(ops) && History(ops)[charger].socket == ops[k].socket
  {
    if ops != [] {
      var n := |ops| - 1;
      var before, op := ops[..n], ops[n];
      LineIsLastRegistered(before, charger);
      if op.Register? && op.charger == charger {
        assert Current(ops, n, charger);
      } else {
        if charger in History(ops) {
          var k: nat :| Current(before, k, charger);
          CurrentAfter(ops, k, charger);
        }
        forall k: nat | Current(ops, k, charger)
          ensures charger in History(ops) && History(ops)[charger].socket == ops[k].socket
        {
          CurrentBefore(ops, k, charger);
        }
      }
    }
  }

  predicate Held(ops: seq<Op>, k: nat, m: nat, charger: Id, connector: int) {
    Current(ops, k, charger) && k < m && LastPut(ops, m, charger, connector)
  }

  // One more operation leaves a slot alone unless it is about this charger's line or this slot.
  lemma SlotStays(ops: seq<Op>, charger: Id, connector: int)
    requires ops != []
    requires var before := History(ops[..|ops| - 1]); var op := ops[|ops| - 1];
             && charger in before
             && !(op.Register? && op.charger == charger)
             && !(op.Remove? && op.charger == charger && op.socket == before[charger].socket)
             && !(op.Put? && op.charger == charger && op.transaction.connector == connector)
             && !(op.Drop? && op.charger == charger && op.connector == connector)
    ensures SlotOn(History(ops), charger, connector) == SlotOn(History(ops[..|ops| - 1]), charger, connector)
  {
    var before := History(ops[..|ops| - 1]);
    var op := ops[|ops| - 1];
    if op.Put? && op.charger == charger {
      SetOneSlot(before[charger].slots, op.transaction, connector);
    } else if op.Drop? && op.charger == charger {
      ClearOneSlot(before[charger].slots, op.connector, connector);
    }
  }

  lemma {:induction false} HeldIsInSlot(ops: seq<Op>, k: nat, m: nat, charger: Id, connector: int)
    requires Held(ops, k, m, charger, connector)
    ensures SlotOn(History(ops), charger, connector) == Some(ops[m].transaction)
  {
    var n := |ops| - 1;
    CurrentBefore(ops, k, charger);
    LineIsLastRegistered(ops[..n], charger);
    if m == n {
      SetOneSlot(History(ops[..n])[charger].slots, ops[n].transaction, connector);
    } else {
      assert forall j :: 0 <= j < n ==> ops[..n][j] == ops[j];
      HeldIsInSlot(ops[..n], k, m, charger, connector);
      SlotStays(ops, charger, connector);
    }
  }

  lemma {:induction false} InSlotIsHeld(ops: seq<Op>, charger: Id, connector: int) returns (k: nat, m: nat)
    requires SlotOn(History(ops), charger, connector).Some?
    ensures Held(ops, k, m, charger, connector)
  {
    var n := |ops| - 1;
    var op := ops[n];
    if op.Put? && op.charger == charger && op.transaction.connector == connector {
      LineIsLastRegistered(ops, charger);
      k :| Current(ops, k, charger);
      m := n;
    } else {
      SlotWasThere(History(ops[..n]), op, charger, connector);
      SlotStays(ops, charger, connector);
      k, m := InSlotIsHeld(ops[..n], charger, connector);
      LineIsLastRegistered(ops[..n], charger);
      assert forall j :: 0 <= j < n ==> ops[..n][j] == ops[j];
      CurrentAfter(ops, k, charger);
    }
  }

  // A slot that holds something after an operation that did not fill it was not cleared by it either.
  lemma SlotWasThere(lines: Lines, op: Op, charger: Id, connector: int)
    requires SlotOn(Apply(lines, op), charger, connector).Some?
    requires !(op.Put? && op.charger == charger && op.transaction.connector == connector)
    ensures charger in lines && !(op.Register? && op.charger == charger)
    ensures !(op.Remove? && op.charger == charger && op.socket == lines[charger].socket)
    ensures !(op.Drop? && op.charger == charger && op.connector == connector)
  {
    if op.Drop? && op.charger == charger && charger in lines {
      ClearOneSlot(lines[charger].slots, op.connector, connector);
    }
  }

  // A connector's slot holds exactly the transaction last put there on the current connection and
  // not dropped since, whatever happened on any other connector, socket or charger.
  lemma SlotIsLastPut(ops: seq<Op>, charger: Id, connector: int, t: Transaction)
    ensures SlotOn(History(ops), charger, connector) == Some(t)
            <==> exists k: nat, m: nat :: Held(ops, k, m, charger, connector) && ops[m].transaction == t
  {
    if SlotOn(History(ops), charger, connector) == Some(t) {
      var k, m := InSlotIsHeld(ops, charger, connector);
      HeldIsInSlot(ops, k, m, charger, connector);
    }
    forall k: nat, m: nat | Held(ops, k, m, charger, connector)
      ensures SlotOn(History(ops), charger, connector) == Some(ops[m].transaction)
    {
      HeldIsInSlot(ops, k, m, charger, connector);
    }
  }

  // The m-th operation is the last sign of life of this charger.
  predicate LastHeard(ops: seq<Op>, m: nat, charger: Id) {
    && m < |ops| && (ops[m].Register? || ops[m].Touch?) && ops[m].charger == charger
    && forall j :: m < j < |ops| ==> !((ops[j].Register? || ops[j].Touch?) && ops[j].charger == charger)
  }

  // A line remembers when its charger was last heard from: its registration, or any frame since.
  lemma {:induction false} HeardAtIsLastFrame(ops: seq<Op>, charger: Id) returns (m: nat)
    requires charger in History(ops)
    ensures LastHeard(ops, m, charger) && History(ops)[charger].heardAt == ops[m].now
  {
    var n := |ops| - 1;
    if (ops[n].Register? || ops[n].Touch?) && ops[n].charger == charger {
      m := n;
    } else {
      m := HeardAtIsLastFrame(ops[..n], charger);
      assert forall j :: 0 <= j < n ==> ops[..n][j] == ops[j];
    }
  }

  // Once a charger has reconnected, the close of its old socket removes nothing.
  lemma SupersededCloseIsIgnored(ops: seq<Op>, k: nat, charger: Id, socket: Socket)
    requires Current(ops, k, charger) && ops[k].socket != socket
    ensures History(ops + [Remove(charger, socket)]) == History(ops)
  {
  }

  /* ------------------------------- the registry ------------------------------ */

  // The in-flight bookkeeping of one socket, shared by everything that holds the connection.
  class ChargerConnection {
    const charger: Id
    const socket: Socket
    var heardAt: int
    var slots: seq<Transaction>

    constructor (charger: Id, socket: Socket, now: int)
      ensures this.charger == charger && this.socket == socket && heardAt == now && slots == []
    {
      this.charger, this.socket, this.heardAt, this.slots := charger, socket, now, [];
    }
  }

  class Connections {
    var connections: map<Id, ChargerConnection>

    // Each line belongs to the charger it is filed under, so no two chargers share one.
    ghost predicate Valid()
      reads this, connections.Values
    {
      forall c :: c in connections ==> connections[c].charger == c
    }

    ghost function Contents(): Lines
      reads this, connections.Values
    {
      map c | c in connections :: Line(connections[c].socket, connections[c].heardAt, connections[c].slots)
    }

    constructor ()
      ensures Valid() && Contents() == map[]
    {
      connections := map[];
    }

    // Replace rather than reject, and say whom it replaced.
    method Add(connection: ChargerConnection) returns (previous: Option<Socket>)
      requires Valid() && connection.slots == []
      modifies this
      ensures Valid() && connections == old(connections)[connection.charger := connection]
      ensures Contents() == Apply(old(Contents()), Register(connection.charger, connection.socket, connection.heardAt))
      ensures previous == if connection.charger in old(Contents())
                          then Some(old(Contents())[connection.charger].socket) else None
    {
      previous := None;
      if connection.charger in connections {
        previous := Some(connections[connection.charger].socket);
      }
      connections := connections[connection.charger := connection];
    }

    // Only if the stored socket is the one given.
    method Evict(charger: Id, socket: Socket) returns (removed: bool)
      requires Valid()
      modifies this
      ensures Valid() && Contents() == Apply(old(Contents()), Remove(charger, socket))
      ensures removed <==> charger in old(Contents()) && charger !in Contents()
      ensures connections == if removed then old(connections) - {charger} else old(connections)
    {
      if charger !in connections || connections[charger].socket != socket {
        return false;
      }
      connections := connections - {charger};
      removed := true;
    }

    method TouchHeartbeat(charger: Id, now: int)
      requires Valid()
      modifies connections.Values
      ensures Valid() && Contents() == Apply(old(Contents()), Touch(charger, now))
    {
      if charger in connections {
        connections[charger].heardAt := now;
      }
    }

    method SetTransaction(charger: Id, transaction: Transaction)
      requires Valid()
      modifies connections.Values
      ensures Valid() && Contents() == Apply(old(Contents()), Put(charger, transaction))
    {
      if charger in connections {
        var connection := connections[charger];
        connection.slots := SetSlot(connection.slots, transaction);
      }
    }

    method ClearTransaction(charger: Id, connector: int)
      requires Valid()
      modifies connections.Values
      ensures Valid() && Contents() == Apply(old(Contents()), Drop(charger, connector))
    {
      if charger in connections {
        var connection := connections[charger];
        connection.slots := ClearSlot(connection.slots, connector);
      }
    }

    method GetTransactionByConnector(charger: Id, connector: int) returns (found: Option<Transaction>)
      ensures found == SlotOn(Contents(), charger, connector)
    {
      if charger in connections {
        return Slot(connections[charger].slots, connector);
      }
      found := None;
    }

    // The reverse lookup walks the slots until one holds the transaction.
    method FindTransactionById(charger: Id, transactionId: nat) returns (found: Option<Transaction>)
      ensures found == if charger in Contents() then FindTransaction(Contents()[charger].slots, transactionId) else None
    {
      if charger !in connections {
        return None;
      }
      var slots := connections[charger].slots;
      for i := 0 to |slots|
        invariant FindTransaction(slots, transactionId) == FindTransaction(slots[i..], transactionId)
      {
        if slots[i].transactionId == transactionId {
          return Some(slots[i]);
        }
        assert slots[i..][1..] == slots[i + 1..];
      }
      found := None;
    }
  }
}
