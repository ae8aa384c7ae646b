/** The table of temporary files for LOAD DATA statements, indexed by file id. */
module LoadTable {
  import opened Bytes

  datatype Record = Record(fname: Option<nat>, created: bool)

  const EMPTY := Record(None, false)

  datatype Command =
    | FirstBlock(id: nat, block: seq<byte>, create: bool)  // Create_file or Begin_load_query
    | AppendBlock(id: nat, block: seq<byte>)
    | ExecuteLoad(id: nat)       // takes what Create_file left
    | ExecuteLoadQuery(id: nat)  // takes what Begin_load_query left

  /** What an id stands for: how it was created, and the bytes of its blocks since then. */
  datatype Load = Load(create: bool, bytes: seq<byte>)

  /** The live load of an id after a history of commands. */
  function Live(h: seq<Command>, id: nat): Option<Load> {
    if h == [] then None
    else
      var before, c := Live(h[..|h| - 1], id), h[|h| - 1];
      if c.id != id then before
      else match c
        case FirstBlock(_, block, create) => Some(Load(create, block))
        case AppendBlock(_, block) =>
          if before.Some? then Some(Load(before.value.create, before.value.bytes + block)) else None
        case ExecuteLoad(_) => if before.Some? && before.value.create then None else before
        case ExecuteLoadQuery(_) => if before.Some? && !before.value.create then None else before
  }

  class Processor {
    var records: seq<Record>
    var disk: map<nat, seq<byte>>  // temporary files by name
    ghost var history: seq<Command>
    ghost var taken: map<nat, seq<byte>>  // files handed out, with their bytes

    ghost predicate Valid()
      reads this
    {
      && (forall id: nat :: RecordOk(id))
      && (forall i, j :: 0 <= i < j < |records| && records[i].fname.Some? ==> records[i].fname != records[j].fname)
      && (forall name :: name in taken ==> HandedOut(name))
    }

    /** A file that was handed out is still there with its bytes, and the table does not know it. */
    ghost predicate HandedOut(name: nat)
      requires name in taken
      reads this
    {
      name in disk && disk[name] == taken[name] && forall i :: 0 <= i < |records| ==> records[i].fname != Some(name)
    }

    /** The record of an id is its live load, and its file holds exactly the load's bytes. */
    ghost predicate RecordOk(id: nat)
      reads this
    {
      match Live(history, id)
      case None => id < |records| ==> records[id] == EMPTY
      case Some(load) =>
        && id < |records| && records[id].created == load.create && records[id].fname.Some?
        && records[id].fname.value in disk && disk[records[id].fname.value] == load.bytes
    }

    constructor ()
      ensures Valid() && history == [] && taken == map[]
    {
      records, disk, history, taken := [], map[], [], map[];
    }

    /** `process_first_event`; `name` is the unused name the operating system gave. */
    method ProcessFirst(id: nat, block: seq<byte>, create: bool, name: nat)
      requires Valid() && name !in disk
      modifies this
      ensures Valid() && history == old(history) + [FirstBlock(id, block, create)]
      ensures disk == old(disk)[name := block] && taken == old(taken)
    {
      ghost var c := FirstBlock(id, block, create);
      HistoryStep(history, c);
      NamesAreOnDisk();
      if id >= |records| {
        records := records + seq(id + 1 - |records|, _ => EMPTY);
      }
      records := records[id := Record(Some(name), create)];
      disk := disk[name := block];
      history := history + [c];
      forall j: nat ensures RecordOk(j) {
        assert old(RecordOk(j));
      }
      forall n | n in taken ensures HandedOut(n) {
        assert old(HandedOut(n));
      }
    }

    /** Every name in the table is a file. */
    lemma NamesAreOnDisk()
      requires Valid()
      ensures forall i :: 0 <= i < |records| && records[i].fname.Some? ==> records[i].fname.value in disk
    {
      forall i | 0 <= i < |records| && records[i].fname.Some? ensures records[i].fname.value in disk {
        assert RecordOk(i);
      }
    }

    method ProcessAppend(id: nat, block: seq<byte>)
      requires Valid()
      modifies this
      ensures Valid() && history == old(history) + [AppendBlock(id, block)]
      ensures records == old(records) && taken == old(taken)
      ensures Live(old(history), id) == None ==> disk == old(disk)
      ensures Live(old(history), id).Some? ==>
        && id < |records| && records[id].fname.Some? && records[id].fname.value in old(disk)
        && disk == old(disk)[records[id].fname.value := old(disk[records[id].fname.value]) + block]
    {
      ghost var c := AppendBlock(id, block);
      HistoryStep(history, c);
      NamesAreOnDisk();
      assert RecordOk(id);
      if id < |records| && records[id].fname.Some? {
        var name := records[id].fname.value;
        disk := disk[name := disk[name] + block];
      }
      history := history + [c];
      forall j: nat ensures RecordOk(j) {
        assert old(RecordOk(j));
      }
      forall n | n in taken ensures HandedOut(n) {
        assert old(HandedOut(n));
      }
    }

    /** `grab_event`: the file of a load that Create_file began, once. */
    method GrabEvent(id: nat) returns (name: Option<nat>)
      requires Valid()
      modifies this
      ensures Valid() && history == old(history) + [ExecuteLoad(id)] && disk == old(disk)
      ensures name.Some? <==> Live(old(history), id).Some? && Live(old(history), id).value.create
      ensures name.Some? ==> name.value in disk && disk[name.value] == Live(old(history), id).value.bytes
      ensures taken == if name.Some? then old(taken)[name.value := disk[name.value]] else old(taken)
    {
      ghost var c := ExecuteLoad(id);
      HistoryStep(history, c);
      assert RecordOk(id);
      name := None;
      if id < |records| && records[id].created {
        name := records[id].fname;
        records := records[id := EMPTY];
        if name.Some? {
          taken := taken[name.value := disk[name.value]];
        }
      }
      history := history + [c];
      forall j: nat ensures RecordOk(j) {
        assert old(RecordOk(j));
      }
      forall n | n in taken ensures HandedOut(n) {
        if name != Some(n) {
          assert old(HandedOut(n));
        }
      }
    }

    /** `grab_fname`: the file of a load that Begin_load_query began, once. */
    method GrabName(id: nat) returns (name: Option<nat>)
      requires Valid()
      modifies this
      ensures Valid() && history == old(history) + [ExecuteLoadQuery(id)] && disk == old(disk)
      ensures name.Some? <==> Live(old(history), id).Some? && !Live(old(history), id).value.create
      ensures name.Some? ==> name.value in disk && disk[name.value] == Live(old(history), id).value.bytes
      ensures taken == if name.Some? then old(taken)[name.value := disk[name.value]] else old(taken)
    {
      ghost var c := ExecuteLoadQuery(id);
      HistoryStep(history, c);
      assert RecordOk(id);
      name := None;
      if id < |records| && !records[id].created {
        name := records[id].fname;
        records := records[id := EMPTY];
        if name.Some? {
          taken := taken[name.value := disk[name.value]];
        }
      }
      history := history + [c];
      forall j: nat ensures RecordOk(j) {
        assert old(RecordOk(j));
      }
      forall n | n in taken ensures HandedOut(n) {
        if name != Some(n) {
          assert old(HandedOut(n));
        }
      }
    }
  }

  /** A command concerns its own id only. */
  lemma HistoryStep(h: seq<Command>, c: Command)
    ensures forall id: nat :: id != c.id ==> Live(h + [c], id) == Live(h, id)
    ensures (h + [c])[..|h|] == h
  {
    assert (h + [c])[..|h|] == h;
  }

  /** The blocks for `id` in a history. */
  function Blocks(h: seq<Command>, id: nat): seq<byte> {
    if h == [] then []
    else
      var c := h[|h| - 1];
      Blocks(h[..|h| - 1], id) + if c.AppendBlock? && c.id == id then c.block else []
  }

  /** The event that takes a load: each way of beginning one has its own. */
  predicate Takes(c: Command, create: bool) {
    if create then c.ExecuteLoad? else c.ExecuteLoadQuery?
  }

  /** No command in `h` begins the load of `id` again, or takes one that began this way. */
  predicate Undisturbed(h: seq<Command>, id: nat, create: bool) {
    forall i :: 0 <= i < |h| ==> h[i].id == id ==> !h[i].FirstBlock? && !Takes(h[i], create)
  }

  /**
   * A load's bytes are its first block and every block for its id since then, whatever happens to
   * other ids in between, and even if an event of the wrong kind asks for it.
   */
  lemma {:induction false} BytesSinceFirstBlock(h: seq<Command>, id: nat, block: seq<byte>, create: bool,
                                                later: seq<Command>)
    requires Undisturbed(later, id, create)
    ensures Live(h + [FirstBlock(id, block, create)] + later, id) == Some(Load(create, block + Blocks(later, id)))
    decreases |later|
  {
    var all := h + [FirstBlock(id, block, create)] + later;
    if later == [] {
      assert all == h + [FirstBlock(id, block, create)];
      assert block + [] == block;
    } else {
      var most := later[..|later| - 1];
      BytesSinceFirstBlock(h, id, block, create, most);
      assert all[..|all| - 1] == h + [FirstBlock(id, block, create)] + most;
      var c := later[|later| - 1];
      assert all[|all| - 1] == c;
      if c.id == id && c.AppendBlock? {
        assert block + Blocks(most, id) + c.block == block + (Blocks(most, id) + c.block);
      } else {
        assert Blocks(most, id) + [] == Blocks(most, id);
      }
    }
  }

  /** The event of the right kind takes the load. */
  lemma TakenByItsKind(h: seq<Command>, id: nat, block: seq<byte>, create: bool, later: seq<Command>, c: Command)
    requires Undisturbed(later, id, create) && c.id == id && Takes(c, create)
    ensures var all := h + [FirstBlock(id, block, create)] + later;
      && Live(all, id) == Some(Load(create, block + Blocks(later, id)))
      && Live(all + [c], id) == None
  {
    BytesSinceFirstBlock(h, id, block, create, later);
    HistoryStep(h + [FirstBlock(id, block, create)] + later, c);
  }

  /** Once taken, a load stays taken until its id is used again. */
  lemma {:induction false} TakenStaysTaken(h: seq<Command>, id: nat, later: seq<Command>)
    requires Live(h, id) == None
    requires forall i :: 0 <= i < |later| ==> later[i].id == id ==> !later[i].FirstBlock?
    ensures Live(h + later, id) == None
    decreases |later|
  {
    if later == [] {
      assert h + later == h;
    } else {
      TakenStaysTaken(h, id, later[..|later| - 1]);
      assert (h + later)[..|h + later| - 1] == h + later[..|later| - 1];
    }
  }
}
