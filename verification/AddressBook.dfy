/** Looking up a server's address: a scan of the ports file for the first record of a rank, memoised
    in address_cache, while servers keep appending records.
 */
module AddressBook {
  import opened Wrappers
  import opened PortsFile

  /** The address in the first record of a rank. */
  function First(records: seq<Record>, rank: int): Option<string> {
    if records == [] then None
    else if records[0].rank == rank then Some(records[0].address)
    else First(records[1..], rank)
  }

  /** The ports file and one client's address_cache. */
  datatype Book = Book(file: string, cache: map<int, string>)

  /** hvac_comm_list_addr: one whole record, under the file lock. */
  function Append(book: Book, r: Record): Book {
    book.(file := book.file + PrintRecord(r))
  }

  /** hvac_client_comm_lookup_addr: the answer, and the book with it memoised. */
  function Lookup(book: Book, rank: int): (Book, Option<string>) {
    if rank in book.cache then (book, Some(book.cache[rank])) else
      match First(Scan(book.file), rank)
      case None => (book, None)
      case Some(address) => (book.(cache := book.cache[rank := address]), Some(address))
  }

  // ---- any interleaving of appends and lookups ----

  datatype Op = Post(record: Record) | Ask(rank: int)

  function Do(book: Book, op: Op): Book {
    match op
    case Post(r) => Append(book, r)
    case Ask(rank) => Lookup(book, rank).0
  }

  function Run(book: Book, ops: seq<Op>): Book
    decreases |ops|
  {
    if ops == [] then book else Run(Do(book, ops[0]), ops[1..])
  }

  predicate Posts(ops: seq<Op>) {
    forall op <- ops :: op.Post? ==> IsWord(op.record.address)
  }

  /** Whatever is memoised is what a scan of the file would find. */
  ghost predicate Agrees(book: Book, records: seq<Record>) {
    && Writable(records) && book.file == Print(records)
    && forall rank <- book.cache :: First(records, rank) == Some(book.cache[rank])
  }

  /** A first record stays first when records are appended. */
  lemma {:induction false} FirstStays(records: seq<Record>, r: Record, rank: int)
    ensures First(records + [r], rank) ==
      if First(records, rank).Some? then First(records, rank) else if r.rank == rank then Some(r.address) else None
  {
    if records == [] {
      assert records + [r] == [r];
      assert [r][1..] == [];
    } else {
      assert (records + [r])[1..] == records[1..] + [r];
      FirstStays(records[1..], r, rank);
    }
  }

  lemma DoAgrees(book: Book, records: seq<Record>, op: Op) returns (records': seq<Record>)
    requires Agrees(book, records) && Posts([op])
    ensures Agrees(Do(book, op), records')
  {
    assert op in [op];
    match op
    case Post(r) =>
      records' := records + [r];
      PrintAppends(records, r);
      forall rank <- book.cache ensures First(records', rank) == Some(book.cache[rank]) {
        FirstStays(records, r, rank);
      }
    case Ask(rank) =>
      records' := records;
      RoundTrip(records);
  }

  lemma {:induction false} RunAgrees(book: Book, records: seq<Record>, ops: seq<Op>) returns (records': seq<Record>)
    requires Agrees(book, records) && Posts(ops)
    ensures Agrees(Run(book, ops), records')
    decreases |ops|
  {
    hide Agrees, Do;
    if ops == [] {
      records' := records;
    } else {
      assert ops[0] in ops;
      var next := DoAgrees(book, records, ops[0]);
      records' := RunAgrees(Do(book, ops[0]), next, ops[1..]);
    }
  }

  /** After any interleaving of appends and lookups, every lookup answers what a scan of the file at
      that moment finds: memoising is invisible, and an unsuccessful lookup is not remembered. */
  lemma MemoIsInvisible(ops: seq<Op>, rank: int)
    requires Posts(ops)
    ensures var book := Run(Book("", map[]), ops);
            && Lookup(book, rank).1 == First(Scan(book.file), rank)
            && (Lookup(book, rank).1 == None ==> Lookup(book, rank).0 == book)
  {
    var records := RunAgrees(Book("", map[]), [], ops);
    RoundTrip(records);
  }

  /** The answer is the address of the earliest record of the rank, if there is one. */
  lemma {:induction false} FirstIs(records: seq<Record>, rank: int, address: string)
    ensures First(records, rank) == Some(address) <==>
      exists k :: IsFirst(records, rank, k) && records[k].address == address
    ensures First(records, rank) == None <==> forall r <- records :: r.rank != rank
  {
    if records != [] {
      FirstIs(records[1..], rank, address);
      assert records == [records[0]] + records[1..];
      if records[0].rank == rank {
        assert IsFirst(records, rank, 0);
      } else {
        if k :| IsFirst(records[1..], rank, k) && records[1..][k].address == address {
          assert IsFirst(records, rank, k + 1);
        }
        if k :| IsFirst(records, rank, k) && records[k].address == address {
          assert IsFirst(records[1..], rank, k - 1);
        }
      }
    }
  }

  predicate IsFirst(records: seq<Record>, rank: int, k: int) {
    0 <= k < |records| && records[k].rank == rank && forall i | 0 <= i < k :: records[i].rank != rank
  }

  /** A successful lookup is memoised: from then on, after any appends and lookups, and whatever the
      file holds, the answer is the same and the file is not scanned. */
  lemma {:induction false} HitIsMemoised(book: Book, rank: int, ops: seq<Op>, file: string)
    requires Lookup(book, rank).1.Some?
    ensures var later := Run(Lookup(book, rank).0, ops).cache;
            && rank in later && later[rank] == Lookup(book, rank).1.value
            && Lookup(Book(file, later), rank).1 == Lookup(book, rank).1
    ensures Lookup(book, rank).0.file == book.file
    ensures forall r <- book.cache :: r in Lookup(book, rank).0.cache && Lookup(book, rank).0.cache[r] == book.cache[r]
  {
    CacheStays(Lookup(book, rank).0, ops, rank);
  }

  lemma {:induction false} CacheStays(book: Book, ops: seq<Op>, rank: int)
    requires rank in book.cache
    ensures rank in Run(book, ops).cache && Run(book, ops).cache[rank] == book.cache[rank]
    decreases |ops|
  {
    if ops != [] { CacheStays(Do(book, ops[0]), ops[1..], rank); }
  }

  /** The address a rank was first posted with, by any server, is the answer for good. */
  lemma FirstPostWins(ops: seq<Op>, r: Record, more: seq<Op>)
    requires Posts(ops) && Posts([Post(r)]) && Posts(more)
    requires First(Scan(Run(Book("", map[]), ops).file), r.rank) == None
    ensures var book := Run(Append(Run(Book("", map[]), ops), r), more);
            Lookup(book, r.rank).1 == Some(r.address)
  {
    hide Lookup, Run;
    var start := Run(Book("", map[]), ops);
    assert Agrees(Book("", map[]), []);
    var records := RunAgrees(Book("", map[]), [], ops);
    RoundTrip(records);
    FirstStays(records, r, r.rank);
    var posted := DoAgrees(start, records, Post(r));
    assert Do(start, Post(r)) == Append(start, r);
    PrintAppends(records, r);
    RoundTrip(posted);
    RoundTrip(records + [r]);
    var last := RunKeepsFirst(Append(start, r), posted, more, r.rank);
    AgreedLookup(Run(Append(start, r), more), last, r.rank);
  }

  lemma AgreedLookup(book: Book, records: seq<Record>, rank: int)
    requires Agrees(book, records)
    ensures Lookup(book, rank).1 == First(records, rank)
  {
    RoundTrip(records);
  }

  lemma {:induction false} RunKeepsFirst(book: Book, records: seq<Record>, ops: seq<Op>, rank: int) returns (last: seq<Record>)
    requires Agrees(book, records) && Posts(ops) && First(records, rank).Some?
    ensures Agrees(Run(book, ops), last) && First(last, rank) == First(records, rank)
    decreases |ops|
  {
    hide Agrees;
    if ops == [] {
      last := records;
    } else {
      assert ops[0] in ops;
      var next := DoAgrees(book, records, ops[0]);
      DoKeepsFirst(book, records, ops[0], next, rank);
      last := RunKeepsFirst(Do(book, ops[0]), next, ops[1..], rank);
    }
  }

  lemma DoKeepsFirst(book: Book, records: seq<Record>, op: Op, next: seq<Record>, rank: int)
    requires Agrees(book, records) && Agrees(Do(book, op), next) && First(records, rank).Some?
    requires Posts([op])
    ensures First(next, rank) == First(records, rank)
  {
    assert op in [op];
    RoundTrip(records);
    RoundTrip(next);
    if op.Post? {
      PrintAppends(records, op.record);
      RoundTrip(records + [op.record]);
      FirstStays(records, op.record, rank);
    }
  }

  /** The client's side of the book. */
  class AddressCache {
    var addressCache: map<int, string>

    constructor ()
      ensures addressCache == map[]
    {
      addressCache := map[];
    }

    /** file: the contents of the ports file at the time of the call. */
    method LookupAddr(rank: int, file: string) returns (server: Option<string>)
      modifies this
      ensures (Book(file, addressCache), server) == Lookup(Book(file, old(addressCache)), rank)
    {
      if rank in addressCache {
        return Some(addressCache[rank]);
      }
      server := None;
      var unread := file;
      var scanned := ScanRecord(unread);
      while scanned.Some? && server == None
        invariant scanned == ScanRecord(unread)
        invariant First(Scan(file), rank) == if server.Some? then server else First(Scan(unread), rank)
        decreases |unread|, server == None
      {
        var (record, rest) := scanned.value;
        if record.rank == rank {
          server := Some(record.address);
        } else {
          unread := rest;
          scanned := ScanRecord(unread);
        }
      }
      if server.Some? {
        addressCache := addressCache[rank := server.value];
      }
    }
  }
}
