/** The historical performance log: per host a table that grows by whole chunks, and the
    stored number of measurements that says where the next one goes. */
module HistLog {
  import opened Wrappers

  const PERF_HIST_CHUNKSIZE := 100

  type ChunkSize = c: int | 0 < c witness PERF_HIST_CHUNKSIZE

  datatype Record = Record(experiment: string, timestamp: string, comment: string, revision: string,
                           totalTime: real, numProcs: int, jobId: int, flops: real)

  /** An extendable array, whose unwritten cells hold the fill value, and the attribute
      num_measurements. */
  datatype Table = Table(cells: seq<Option<Record>>, count: int)

  type LogFile = map<string, Table>

  function Fill(n: nat): seq<Option<Record>> {
    seq(n, _ => None)
  }

  function NewTable(chunk: ChunkSize): Table {
    Table(Fill(chunk), 0)
  }

  /** Setting the extent drops cells at the end or adds unwritten ones. */
  function SetExtent(cells: seq<Option<Record>>, n: nat): seq<Option<Record>> {
    if n <= |cells| then cells[..n] else cells + Fill(n - |cells|)
  }

  /** One more measurement. */
  function Saved(chunk: ChunkSize, t: Table, record: Record): Table
    requires 0 <= t.count < |t.cells|
  {
    var count := t.count + 1;
    var cells := t.cells[t.count := Some(record)];
    Table(if count % chunk == 0 then SetExtent(cells, count + chunk) else cells, count)
  }

  /** The written cells are the first ones, and there is room up to the next boundary. */
  predicate Packed(chunk: ChunkSize, t: Table) {
    && t.count >= 0
    && |t.cells| == chunk * (t.count / chunk + 1)
    && t.count < |t.cells|
    && forall i :: 0 <= i < |t.cells| ==> (t.cells[i].Some? <==> i < t.count)
  }

  function Records(chunk: ChunkSize, t: Table): seq<Record>
    requires Packed(chunk, t)
  {
    seq(t.count, i requires 0 <= i < t.count => t.cells[i].value)
  }

  lemma Boundary(n: nat, chunk: ChunkSize)
    ensures n < chunk * (n / chunk + 1)
    ensures (n + 1) % chunk == 0 ==> n + 1 == chunk * (n / chunk + 1) && n + 1 + chunk == chunk * ((n + 1) / chunk + 1)
    ensures (n + 1) % chunk != 0 ==> (n + 1) / chunk == n / chunk
  {
    var q, r := n / chunk, n % chunk;
    assert n == chunk * q + r && chunk * (q + 1) == chunk * q + chunk;
    if r + 1 == chunk {
      assert n + 1 == chunk * (q + 1);
      Quotient(n + 1, chunk, q + 1, 0);
      assert chunk * (q + 2) == chunk * (q + 1) + chunk;
    } else {
      Quotient(n + 1, chunk, q, r + 1);
    }
  }

  lemma Multiple(chunk: ChunkSize, d: int)
    ensures d >= 1 ==> chunk * d >= chunk
    ensures d <= -1 ==> chunk * d + chunk <= 0
  {
    if d >= 1 { assert chunk * d == chunk * (d - 1) + chunk; }
    if d <= -1 { assert chunk * d == chunk * (d + 1) - chunk; }
  }

  lemma Quotient(n: nat, chunk: ChunkSize, q: int, r: int)
    requires n == chunk * q + r && 0 <= r < chunk
    ensures n / chunk == q && n % chunk == r
  {
    var d := n / chunk - q;
    assert chunk * d == r - n % chunk by { assert chunk * d == chunk * (n / chunk) - chunk * q; }
    Multiple(chunk, d);
  }

  lemma NewTablePacked(chunk: ChunkSize)
    ensures Packed(chunk, NewTable(chunk)) && Records(chunk, NewTable(chunk)) == []
  {
    Boundary(0, chunk);
    assert 0 / chunk == 0;
  }

  /** An append lands inside the table on a cell nobody wrote, keeps what is there and
      leaves room for the next one. */
  lemma SavedPacked(chunk: ChunkSize, t: Table, record: Record)
    requires Packed(chunk, t)
    ensures t.cells[t.count].None?
    ensures Packed(chunk, Saved(chunk, t, record))
    ensures Records(chunk, Saved(chunk, t, record)) == Records(chunk, t) + [record]
  {
    Boundary(t.count, chunk);
    Boundary(t.count + 1, chunk);
  }

  datatype Save = Save(host: string, record: Record)

  /** A save into a file: the host's table is created if it has none. */
  function SavedTo(chunk: ChunkSize, f: LogFile, s: Save): LogFile
    requires forall host :: host in f ==> Packed(chunk, f[host])
  {
    var t := if s.host in f then f[s.host] else NewTable(chunk);
    NewTablePacked(chunk);
    assert Packed(chunk, t);
    f[s.host := Saved(chunk, t, s.record)]
  }

  ghost function FileAfter(chunk: ChunkSize, saves: seq<Save>): (f: LogFile)
    ensures forall host :: host in f ==> Packed(chunk, f[host])
  {
    if saves == [] then map[]
    else
      var f := FileAfter(chunk, saves[..|saves| - 1]);
      var s := saves[|saves| - 1];
      NewTablePacked(chunk);
      SavedPacked(chunk, if s.host in f then f[s.host] else NewTable(chunk), s.record);
      SavedTo(chunk, f, s)
  }

  /** What was ever saved for a host, in order. */
  function RecordsOf(saves: seq<Save>, host: string): seq<Record> {
    if saves == [] then []
    else
      var s := saves[|saves| - 1];
      RecordsOf(saves[..|saves| - 1], host) + if s.host == host then [s.record] else []
  }

  lemma {:induction false} HistoryKept(chunk: ChunkSize, saves: seq<Save>, host: string)
    ensures var f := FileAfter(chunk, saves);
      if host in f then Records(chunk, f[host]) == RecordsOf(saves, host) && RecordsOf(saves, host) != []
      else RecordsOf(saves, host) == []
  {
    if saves != [] {
      hide Saved, Packed, Records;
      var p, s := saves[..|saves| - 1], saves[|saves| - 1];
      HistoryKept(chunk, p, host);
      var f := FileAfter(chunk, p);
      var t := if s.host in f then f[s.host] else NewTable(chunk);
      NewTablePacked(chunk);
      assert Packed(chunk, t);
      SavedPacked(chunk, t, s.record);
      assert FileAfter(chunk, saves) == f[s.host := Saved(chunk, t, s.record)];
    }
  }

  /** After any saves, reading a host's table gives exactly its records in order, and the
      table has room for whole chunks, the last of them not full. */
  lemma {:induction false} LogIsHistory(chunk: ChunkSize, saves: seq<Save>, host: string)
    ensures var f := FileAfter(chunk, saves);
      if host in f
      then Records(chunk, f[host]) == RecordsOf(saves, host) && f[host].count == |RecordsOf(saves, host)| > 0
           && |f[host].cells| == chunk * (|RecordsOf(saves, host)| / chunk + 1)
      else RecordsOf(saves, host) == []
  {
    hide FileAfter, RecordsOf;
    HistoryKept(chunk, saves, host);
  }

  /** With the chunk size of the program a table has room for the next hundred boundary. */
  lemma TablesGrowByHundreds(saves: seq<Save>, host: string)
    ensures var f := FileAfter(PERF_HIST_CHUNKSIZE, saves);
      host in f ==> |f[host].cells| == 100 * (|RecordsOf(saves, host)| / 100 + 1)
  {
    hide FileAfter, RecordsOf;
    LogIsHistory(PERF_HIST_CHUNKSIZE, saves, host);
  }

  class PerformanceLog {
    const chunk: ChunkSize
    var file: LogFile

    constructor (chunk: ChunkSize)
      ensures this.chunk == chunk && file == FileAfter(chunk, [])
    {
      this.chunk := chunk;
      file := map[];
    }

    ghost predicate Valid()
      reads this
    {
      forall host :: host in file ==> Packed(chunk, file[host])
    }

    method SaveHistTiming(host: string, record: Record)
      requires Valid()
      modifies this
      ensures Valid() && file == SavedTo(chunk, old(file), Save(host, record))
      ensures Records(chunk, file[host]) ==
              (if host in old(file) then Records(chunk, old(file)[host]) else []) + [record]
      ensures forall h :: h != host ==> (h in file <==> h in old(file)) && (h in file ==> file[h] == old(file)[h])
    {
      NewTablePacked(chunk);
      SavedPacked(chunk, if host in file then file[host] else NewTable(chunk), record);
      if host !in file {
        file := file[host := Table(Fill(chunk), 0)];
      }
      var numMeasurements := file[host].count;
      AppendHistData(host, record, numMeasurements);
      numMeasurements := numMeasurements + 1;
      file := file[host := file[host].(count := numMeasurements)];
      if numMeasurements % chunk == 0 {
        file := file[host := file[host].(cells := SetExtent(file[host].cells, numMeasurements + chunk))];
      }
      assert file == SavedTo(chunk, old(file), Save(host, record));
    }

    method AppendHistData(host: string, record: Record, numMeasurements: int)
      requires host in file && 0 <= numMeasurements < |file[host].cells|
      modifies this
      ensures var t := old(file)[host];
        file == old(file)[host := t.(cells := t.cells[numMeasurements := Some(record)])]
    {
      var cells := file[host].cells[numMeasurements := Some(record)];
      file := file[host := file[host].(cells := cells)];
    }

    method ReadAllHostData(host: string) returns (data: seq<Record>)
      requires Valid() && host in file
      ensures data == Records(chunk, file[host])
    {
      var numMeasurements := file[host].count;
      data := [];
      for i := 0 to numMeasurements
        invariant data == Records(chunk, file[host])[..i]
      {
        data := data + [file[host].cells[i].value];
      }
    }
  }
}
