/** Commands and the executor that applies them to a node's collection. */
module KVStore {

  datatype Option<+T> = None | Some(value: T)

  /** A customer document: its _id and the remaining fields. */
  datatype Customer = Customer(id: string, profile: string)

  datatype Op = Insert | Replace | Delete | Other(name: string)

  /** value is the decoded ValueJSON, None when it does not decode. */
  datatype Command = Command(op: Op, key: string, value: Option<Customer>)

  type Store = map<string, Customer>

  datatype ExecError = Malformed | DuplicateId | ImmutableId | NotFound | UnknownOp

  datatype ExecResult = Done(store: Store) | Failed(error: ExecError)

  function Execute(store: Store, cmd: Command): ExecResult {
    match cmd.op
    case Insert =>
      if cmd.value.None? then Failed(Malformed)
      else if cmd.value.value.id in store then Failed(DuplicateId)
      else Done(store[cmd.value.value.id := cmd.value.value])
    case Replace =>
      if cmd.value.None? then Failed(Malformed)
      else if cmd.key !in store then Failed(NotFound)
      else if cmd.value.value.id != cmd.key then Failed(ImmutableId)
      else Done(store[cmd.key := cmd.value.value])
    case Delete =>
      if cmd.key !in store then Failed(NotFound)
      else Done(store - {cmd.key})
    case Other(_) => Failed(UnknownOp)
  }

  /** A command that fails leaves the store as it was. */
  function After(store: Store, cmd: Command): Store {
    match Execute(store, cmd)
    case Done(next) => next
    case Failed(_) => store
  }

  /** The store after the first k commands. */
  function Replay(seed: Store, cmds: seq<Command>, k: nat): Store
    requires k <= |cmds|
  {
    if k == 0 then seed else After(Replay(seed, cmds, k - 1), cmds[k - 1])
  }

  lemma {:induction false} ReplayPrefix(seed: Store, cmds: seq<Command>, more: seq<Command>, k: nat)
    requires k <= |cmds| && cmds <= more
    ensures Replay(seed, cmds, k) == Replay(seed, more, k)
  {
    if k > 0 {
      ReplayPrefix(seed, cmds, more, k - 1);
    }
  }

  /** The id a command addresses; only that document can change. */
  function Target(cmd: Command): string {
    if cmd.op.Insert? && cmd.value.Some? then cmd.value.value.id else cmd.key
  }

  lemma OnlyTargetChanges(store: Store, cmd: Command, id: string)
    requires id != Target(cmd)
    ensures id in After(store, cmd) <==> id in store
    ensures id in store ==> After(store, cmd)[id] == store[id]
  {
  }

  /** A delete undoes an insert that succeeded. */
  lemma DeleteUndoesInsert(store: Store, c: Customer)
    requires Execute(store, Command(Insert, c.id, Some(c))).Done?
    ensures Execute(After(store, Command(Insert, c.id, Some(c))), Command(Delete, c.id, None)) == Done(store)
  {
    assert store[c.id := c] - {c.id} == store;
  }

  /** Which error a command gives, and that it succeeds exactly if it gives none of them. */
  lemma ErrorsExact(store: Store, cmd: Command)
    ensures Execute(store, cmd) == Failed(UnknownOp) <==> cmd.op.Other?
    ensures Execute(store, cmd) == Failed(Malformed) <==> (cmd.op.Insert? || cmd.op.Replace?) && cmd.value.None?
    ensures Execute(store, cmd) == Failed(DuplicateId) <==>
              cmd.op.Insert? && cmd.value.Some? && cmd.value.value.id in store
    ensures Execute(store, cmd) == Failed(NotFound) <==>
              (cmd.op.Delete? || (cmd.op.Replace? && cmd.value.Some?)) && cmd.key !in store
    ensures Execute(store, cmd) == Failed(ImmutableId) <==>
              cmd.op.Replace? && cmd.value.Some? && cmd.key in store && cmd.value.value.id != cmd.key
    ensures Execute(store, cmd).Failed? ==> After(store, cmd) == store
  {
  }

  /** What a command that succeeded leaves: an insert adds its document, a replacement puts its own in the place
      of another, a delete takes one away. */
  lemma SuccessLeaves(store: Store, cmd: Command)
    requires Execute(store, cmd).Done?
    ensures After(store, cmd).Keys == if cmd.op.Insert? then store.Keys + {Target(cmd)}
                                      else if cmd.op.Replace? then store.Keys else store.Keys - {cmd.key}
    ensures !cmd.op.Insert? ==> cmd.key in store
    ensures cmd.op.Insert? || cmd.op.Replace? ==>
              && cmd.value.Some? && cmd.value.value.id == Target(cmd)
              && Target(cmd) in After(store, cmd) && After(store, cmd)[Target(cmd)] == cmd.value.value
  {
  }

  /** The document kept under an id, if any. */
  function Read(store: Store, id: string): Option<Customer> {
    if id in store then Some(store[id]) else None
  }

  /** The j-th command succeeds, where it comes in the replay, on this id. */
  predicate WritesAt(seed: Store, cmds: seq<Command>, j: nat, id: string)
    requires j < |cmds|
  {
    Target(cmds[j]) == id && Execute(Replay(seed, cmds, j), cmds[j]).Done?
  }

  /** Reading an id finds what the last successful command on it wrote: its document, or none for a delete. */
  lemma {:induction false} LastWriteWins(seed: Store, cmds: seq<Command>, j: nat, k: nat, id: string)
    requires j < k <= |cmds| && WritesAt(seed, cmds, j, id)
    requires forall i :: j < i < k ==> !WritesAt(seed, cmds, i, id)
    ensures Read(Replay(seed, cmds, k), id) == if cmds[j].op.Delete? then None else cmds[j].value
  {
    if k == j + 1 {
      SuccessLeaves(Replay(seed, cmds, j), cmds[j]);
    } else {
      LastWriteWins(seed, cmds, j, k - 1, id);
      NotWritten(seed, cmds, k - 1, id);
    }
  }

  /** And what the seed held if there was none. */
  lemma {:induction false} NeverWritten(seed: Store, cmds: seq<Command>, k: nat, id: string)
    requires k <= |cmds| && forall i :: 0 <= i < k ==> !WritesAt(seed, cmds, i, id)
    ensures Read(Replay(seed, cmds, k), id) == Read(seed, id)
  {
    if k > 0 {
      NeverWritten(seed, cmds, k - 1, id);
      NotWritten(seed, cmds, k - 1, id);
    }
  }

  lemma NotWritten(seed: Store, cmds: seq<Command>, j: nat, id: string)
    requires j < |cmds| && !WritesAt(seed, cmds, j, id)
    ensures Read(Replay(seed, cmds, j + 1), id) == Read(Replay(seed, cmds, j), id)
  {
    if Target(cmds[j]) != id {
      OnlyTargetChanges(Replay(seed, cmds, j), cmds[j], id);
    }
  }

  /** A node's collection with the driver calls the executor makes. */
  class Collection {
    var docs: Store

    constructor (seed: Store)
      ensures docs == seed
    {
      docs := seed;
    }

    method InsertOne(c: Customer) returns (ok: bool)
      modifies this
      ensures ok <==> c.id !in old(docs)
      ensures docs == if ok then old(docs)[c.id := c] else old(docs)
    {
      ok := c.id !in docs;
      if ok {
        docs := docs[c.id := c];
      }
    }

    method ReplaceOne(key: string, c: Customer) returns (err: Option<ExecError>, matchedCount: nat)
      modifies this
      ensures err == if key in old(docs) && c.id != key then Some(ImmutableId) else None
      ensures matchedCount == if key in old(docs) then 1 else 0
      ensures docs == if key in old(docs) && c.id == key then old(docs)[key := c] else old(docs)
    {
      err, matchedCount := None, 0;
      if key in docs {
        matchedCount := 1;
        if c.id != key {
          err := Some(ImmutableId);
        } else {
          docs := docs[key := c];
        }
      }
    }

    method DeleteOne(key: string) returns (deletedCount: nat)
      modifies this
      ensures deletedCount == if key in old(docs) then 1 else 0
      ensures docs == old(docs) - {key}
    {
      deletedCount := 0;
      if key in docs {
        docs := docs - {key};
        deletedCount := 1;
      }
    }

    /** The closure made by makeKVExecutor. */
    method Run(cmd: Command) returns (err: Option<ExecError>)
      modifies this
      ensures cmd.op.Insert? ==>
        if cmd.value.None? then err == Some(Malformed) && docs == old(docs)
        else if cmd.value.value.id in old(docs) then err == Some(DuplicateId) && docs == old(docs)
        else err == None && docs == old(docs)[cmd.value.value.id := cmd.value.value]
      ensures cmd.op.Replace? ==>
        if cmd.value.None? then err == Some(Malformed) && docs == old(docs)
        else if cmd.key !in old(docs) then err == Some(NotFound) && docs == old(docs)
        else if cmd.value.value.id != cmd.key then err == Some(ImmutableId) && docs == old(docs)
        else err == None && docs == old(docs)[cmd.key := cmd.value.value]
      ensures cmd.op.Delete? ==>
        if cmd.key !in old(docs) then err == Some(NotFound) && docs == old(docs)
        else err == None && docs == old(docs) - {cmd.key}
      ensures cmd.op.Other? ==> err == Some(UnknownOp) && docs == old(docs)
      ensures docs == After(old(docs), cmd)
      ensures err == match Execute(old(docs), cmd) case Done(_) => None case Failed(e) => Some(e)
    {
      match cmd.op {
        case Insert =>
          if cmd.value.None? {
            return Some(Malformed);
          }
          var ok := InsertOne(cmd.value.value);
          return if ok then None else Some(DuplicateId);
        case Replace =>
          if cmd.value.None? {
            return Some(Malformed);
          }
          var matched;
          err, matched := ReplaceOne(cmd.key, cmd.value.value);
          if err.None? && matched == 0 {
            err := Some(NotFound);
          }
        case Delete =>
          var deleted := DeleteOne(cmd.key);
          return if deleted == 0 then Some(NotFound) else None;
        case Other(_) =>
          return Some(UnknownOp);
      }
    }
  }
}
