/** The hash-chained audit log, in memory and on disk. The hash, the canonical
    serialisation and the reading and writing of lines are parameters: 64
    characters out, injective on JSON contents, and what is written can be read. */
module AuditChain {
  import opened Basics

  /** A value JSON can hold as it is, or one that writing has to convert: a date
      turned into text, a dictionary whose keys are turned into strings. */
  datatype Value = Json(text: string) | Foreign(text: string)

  /** A row's own fields, without prev_hash and hash. */
  type Body = map<string, Value>

  datatype Row = Row(body: Body, prevHash: string, hash: string)

  /** A line of the file as it is read: the two hashes may be missing. */
  datatype Entry = Entry(body: Body, prevHash: Option<string>, hash: Option<string>)

  /** `hash` is SHA-256 in hexadecimal, `canon` the key-sorted JSON of a row
      without its own hash, `write` the JSON line of a row and `parse` its
      reading, `None` for a line that is not a JSON object. */
  datatype Codec = Codec(hash: string -> string, canon: (Body, string) -> string, write: Row -> string,
                         parse: string -> Option<Entry>)

  function Digest(c: Codec, x: string): string {
    c.hash(x)
  }

  function Payload(c: Codec, body: Body, prev: string): string {
    c.canon(body, prev)
  }

  function Write(c: Codec, row: Row): string {
    c.write(row)
  }

  function Parse(c: Codec, text: string): Option<Entry> {
    c.parse(text)
  }

  predicate IsJson(body: Body) {
    forall k :: k in body ==> body[k].Json?
  }

  /** Equal serialisations of JSON contents have equal contents. */
  predicate SameContents(c: Codec, a: Body, p: string, b: Body, q: string) {
    IsJson(a) && IsJson(b) && Payload(c, a, p) == Payload(c, b, q) ==> a == b && p == q
  }

  ghost predicate Proper(c: Codec) {
    && (forall x: string :: |Digest(c, x)| == 64)
    && (forall a: Body, p: string, b: Body, q: string :: SameContents(c, a, p, b, q))
  }

  /** `line.strip()` leaves nothing. */
  predicate IsBlank(text: string) {
    forall ch :: ch in text ==> ch == ' ' || ch == '\t' || ch == '\r'
  }

  /** A written row reads back with both hashes and some JSON body; a JSON body as
      itself, any other as whatever the conversion made of it. */
  predicate ReadsBack(c: Codec, row: Row) {
    var e := Parse(c, Write(c, row));
    && !IsBlank(Write(c, row)) && e.Some?
    && e.value.prevHash == Some(row.prevHash) && e.value.hash == Some(row.hash)
    && IsJson(e.value.body) && (IsJson(row.body) ==> e.value.body == row.body)
  }

  ghost predicate Faithful(c: Codec) {
    && (forall row: Row :: ReadsBack(c, row))
    && (forall text: string :: Parse(c, text).Some? ==> IsJson(Parse(c, text).value.body))
  }

  function Zeros(n: nat): (r: string)
    ensures |r| == n
  {
    if n == 0 then "" else Zeros(n - 1) + "0"
  }

  const GENESIS: string := Zeros(64)

  function Head(rows: seq<Row>): string {
    if rows == [] then GENESIS else rows[|rows| - 1].hash
  }

  /** The string that is hashed for the last row. */
  function Preimage(c: Codec, rows: seq<Row>): string
    requires rows != []
  {
    var last := rows[|rows| - 1];
    Head(rows[..|rows| - 1]) + Payload(c, last.body, last.prevHash)
  }

  predicate Linked(c: Codec, rows: seq<Row>)
    requires rows != []
  {
    var last := rows[|rows| - 1];
    last.prevHash == Head(rows[..|rows| - 1]) && Digest(c, Preimage(c, rows)) == last.hash
  }

  predicate Verifies(c: Codec, rows: seq<Row>) {
    rows == [] || (Verifies(c, rows[..|rows| - 1]) && Linked(c, rows))
  }

  function NextRow(c: Codec, rows: seq<Row>, body: Body): Row {
    var prev := Head(rows);
    Row(body, prev, Digest(c, prev + Payload(c, body, prev)))
  }

  lemma {:induction false} VerifiesPrefix(c: Codec, rows: seq<Row>, k: nat)
    requires k <= |rows| && Verifies(c, rows)
    ensures Verifies(c, rows[..k])
    decreases |rows|
  {
    if k < |rows| {
      VerifiesPrefix(c, rows[..|rows| - 1], k);
      assert rows[..|rows| - 1][..k] == rows[..k];
    } else {
      assert rows[..k] == rows;
    }
  }

  lemma {:induction false} AppendVerifies(c: Codec, rows: seq<Row>, body: Body)
    requires Verifies(c, rows)
    ensures Verifies(c, rows + [NextRow(c, rows, body)])
  {
    var row := NextRow(c, rows, body);
    var rows1 := rows + [row];
    assert rows1[..|rows1| - 1] == rows;
    assert Preimage(c, rows1) == Head(rows) + Payload(c, body, Head(rows));
    assert Linked(c, rows1);
  }

  // ---------- reading a file ----------

  /** A load succeeds, or raises: ChainTamperedError, or some other exception for a
      line that is not a JSON object - JSONDecodeError if it is no JSON at all,
      AttributeError if it is a list, a number or a text. Lines are counted from 1. */
  datatype Load = Loaded(rows: seq<Row>) | Tampered(line: nat) | Malformed(line: nat)

  function ReadLine(c: Codec, rows: seq<Row>, text: string, n: nat): Load {
    var e := Parse(c, text);
    if IsBlank(text) then Loaded(rows)
    else if e.None? then Malformed(n)
    else
      var prev := Head(rows);
      var hash := Digest(c, prev + Payload(c, e.value.body, prev));
      if e.value.prevHash != Some(prev) || e.value.hash != Some(hash) then Tampered(n)
      else Loaded(rows + [Row(e.value.body, prev, hash)])
  }

  /** Line after line, up to the first that raises. */
  function LoadOf(c: Codec, file: seq<string>): Load {
    if file == [] then Loaded([])
    else
      var before := LoadOf(c, file[..|file| - 1]);
      if before.Loaded? then ReadLine(c, before.rows, file[|file| - 1], |file|) else before
  }

  predicate AllJson(rows: seq<Row>) {
    forall row :: row in rows ==> IsJson(row.body)
  }

  /** What loads is a verifying chain of JSON rows. */
  lemma {:induction false} LoadedVerifies(c: Codec, file: seq<string>)
    requires LoadOf(c, file).Loaded?
    ensures Verifies(c, LoadOf(c, file).rows)
    ensures Faithful(c) ==> AllJson(LoadOf(c, file).rows)
  {
    if file != [] {
      LoadedVerifies(c, file[..|file| - 1]);
      var rows, e := LoadOf(c, file[..|file| - 1]).rows, Parse(c, file[|file| - 1]);
      if !IsBlank(file[|file| - 1]) {
        AppendVerifies(c, rows, e.value.body);
      }
    }
  }

  lemma {:induction false} FailsFrom(c: Codec, file: seq<string>, k: nat)
    requires k <= |file| && !LoadOf(c, file[..k]).Loaded?
    ensures LoadOf(c, file) == LoadOf(c, file[..k])
    decreases |file|
  {
    if k < |file| {
      assert file[..|file| - 1][..k] == file[..k];
      FailsFrom(c, file[..|file| - 1], k);
    } else {
      assert file[..k] == file;
    }
  }

  // ---------- the logs ----------

  class AuditLog {
    const codec: Codec
    var rows: seq<Row>

    constructor (codec: Codec)
      ensures this.codec == codec && rows == []
    {
      this.codec, rows := codec, [];
    }

    method Append(body: Body) returns (row: Row)
      modifies this
      ensures row == NextRow(codec, old(rows), body) && rows == old(rows) + [row]
      ensures old(Verifies(codec, rows)) ==> Verifies(codec, rows)
    {
      var prev := if rows != [] then rows[|rows| - 1].hash else GENESIS;
      row := Row(body, prev, Digest(codec, prev + Payload(codec, body, prev)));
      if Verifies(codec, rows) {
        AppendVerifies(codec, rows, body);
      }
      rows := rows + [row];
    }

    method VerifyChain() returns (ok: bool)
      ensures ok == Verifies(codec, rows)
    {
      var prev := GENESIS;
      for i := 0 to |rows|
        invariant Verifies(codec, rows[..i]) && prev == Head(rows[..i])
      {
        var row := rows[i];
        assert rows[..i + 1][..i] == rows[..i];
        if row.prevHash != prev || Digest(codec, prev + Payload(codec, row.body, row.prevHash)) != row.hash {
          BrokenAt(codec, rows, i + 1);
          return false;
        }
        prev := row.hash;
      }
      assert rows[..|rows|] == rows;
      return true;
    }
  }

  lemma {:induction false} BrokenAt(c: Codec, rows: seq<Row>, k: nat)
    requires k <= |rows| && !Verifies(c, rows[..k])
    ensures !Verifies(c, rows)
  {
    if Verifies(c, rows) {
      VerifiesPrefix(c, rows, k);
    }
  }

  class JsonlAuditLog {
    const codec: Codec
    var file: seq<string>
    var rows: seq<Row>

    /** Opening a file; the rows are filled in by `Load`. */
    constructor (codec: Codec, file: seq<string>)
      ensures this.codec == codec && this.file == file && rows == []
    {
      this.codec, this.file, rows := codec, file, [];
    }

    /** The rows of the file, or the exception of its first bad line. */
    method Load() returns (r: Load)
      requires rows == []
      modifies this`rows
      ensures r == LoadOf(codec, file) && (r.Loaded? ==> rows == r.rows)
    {
      var prev := GENESIS;
      for i := 0 to |file|
        invariant LoadOf(codec, file[..i]) == Loaded(rows) && prev == Head(rows)
      {
        assert file[..i + 1][..i] == file[..i];
        if !IsBlank(file[i]) {
          var e := Parse(codec, file[i]);
          if e.None? {
            FailsFrom(codec, file, i + 1);
            return Malformed(i + 1);
          }
          var hash := Digest(codec, prev + Payload(codec, e.value.body, prev));
          if e.value.prevHash != Some(prev) || e.value.hash != Some(hash) {
            FailsFrom(codec, file, i + 1);
            return Tampered(i + 1);
          }
          prev := hash;
          rows := rows + [Row(e.value.body, e.value.prevHash.value, hash)];
        }
      }
      assert file[..|file|] == file;
      return Loaded(rows);
    }

    method Append(body: Body) returns (row: Row)
      modifies this
      ensures row == NextRow(codec, old(rows), body)
      ensures rows == old(rows) + [row] && file == old(file) + [Write(codec, row)]
      ensures old(Verifies(codec, rows)) ==> Verifies(codec, rows)
    {
      var prev := if rows != [] then rows[|rows| - 1].hash else GENESIS;
      row := Row(body, prev, Digest(codec, prev + Payload(codec, body, prev)));
      if Verifies(codec, rows) {
        AppendVerifies(codec, rows, body);
      }
      file := file + [Write(codec, row)];
      rows := rows + [row];
    }

    /** `verify_chain`: does a fresh load of the file succeed? `None` is the exception
        that a malformed line lets through. */
    method VerifyChain() returns (ok: Option<bool>)
      ensures ok == match LoadOf(codec, file)
                    case Loaded(_) => Some(true)
                    case Tampered(_) => Some(false)
                    case Malformed(_) => None
    {
      var again := new JsonlAuditLog(codec, file);
      var r := again.Load();
      match r
      case Loaded(_) => return Some(true);
      case Tampered(_) => return Some(false);
      case Malformed(_) => return None;
    }
  }

  // ---------- what was written against what is read ----------

  /** The body a row has once it has been written and read. */
  function Reread(c: Codec, row: Row): Body
    requires ReadsBack(c, row)
  {
    Parse(c, Write(c, row)).value.body
  }

  /** The row's hash is still right after writing and reading. */
  predicate Survives(c: Codec, row: Row)
    requires ReadsBack(c, row)
  {
    Digest(c, row.prevHash + Payload(c, Reread(c, row), row.prevHash)) == row.hash
  }

  ghost predicate AllSurvive(c: Codec, rows: seq<Row>)
    requires Faithful(c)
  {
    forall row :: row in rows ==> Survives(c, row)
  }

  function WriteAll(c: Codec, rows: seq<Row>): (r: seq<string>)
    ensures |r| == |rows|
  {
    if rows == [] then [] else WriteAll(c, rows[..|rows| - 1]) + [Write(c, rows[|rows| - 1])]
  }

  ghost function RereadAll(c: Codec, rows: seq<Row>): (r: seq<Row>)
    requires Faithful(c)
    ensures |r| == |rows| && Head(r) == Head(rows)
  {
    if rows == [] then []
    else
      var row := rows[|rows| - 1];
      RereadAll(c, rows[..|rows| - 1]) + [row.(body := Reread(c, row))]
  }

  /** The first row that does not survive. */
  ghost function FirstLost(c: Codec, rows: seq<Row>): (r: Option<nat>)
    requires Faithful(c)
    ensures r.None? <==> AllSurvive(c, rows)
    ensures r.Some? ==> r.value < |rows| && !Survives(c, rows[r.value]) && AllSurvive(c, rows[..r.value])
  {
    if rows == [] then None
    else
      var init, row := rows[..|rows| - 1], rows[|rows| - 1];
      var k := FirstLost(c, init);
      assert rows == init + [row];
      assert k.Some? ==> rows[k.value] == init[k.value] && rows[..k.value] == init[..k.value];
      if k.Some? then k else if Survives(c, row) then None else Some(|rows| - 1)
  }

  /** Reading a chain back gives the reread rows if every row survives, and says
      "tampered" at the first line that does not - an untouched file included. */
  lemma {:induction false} LoadWritten(c: Codec, rows: seq<Row>)
    requires Faithful(c) && Verifies(c, rows)
    ensures LoadOf(c, WriteAll(c, rows))
            == match FirstLost(c, rows)
               case None => Loaded(RereadAll(c, rows))
               case Some(k) => Tampered(k + 1)
  {
    if rows != [] {
      var init, row := rows[..|rows| - 1], rows[|rows| - 1];
      LoadWritten(c, init);
      assert WriteAll(c, rows)[..|rows| - 1] == WriteAll(c, init);
      ReadWritten(c, init, row);
    }
  }

  lemma {:induction false} ReadWritten(c: Codec, init: seq<Row>, row: Row)
    requires Faithful(c) && row.prevHash == Head(init)
    ensures ReadLine(c, RereadAll(c, init), Write(c, row), |init| + 1)
            == if Survives(c, row) then Loaded(RereadAll(c, init) + [row.(body := Reread(c, row))])
               else Tampered(|init| + 1)
  {
    assert ReadsBack(c, row);
  }

  /** Whether a row survives is a matter of its text, unless the hash collides. */
  lemma {:induction false} SurvivesIffSameText(c: Codec, row: Row)
    requires ReadsBack(c, row) && row.hash == Digest(c, row.prevHash + Payload(c, row.body, row.prevHash))
    requires var x, y := row.prevHash + Payload(c, Reread(c, row), row.prevHash),
                         row.prevHash + Payload(c, row.body, row.prevHash);
             Digest(c, x) == Digest(c, y) ==> x == y
    ensures Survives(c, row) <==> Payload(c, Reread(c, row), row.prevHash) == Payload(c, row.body, row.prevHash)
  {
    var x, y := Payload(c, Reread(c, row), row.prevHash), Payload(c, row.body, row.prevHash);
    if row.prevHash + x == row.prevHash + y {
      SplitPrefix(row.prevHash, row.prevHash, x, y);
    }
  }

  /** A chain reloads to the very same rows if and only if every body is read back
      as itself - as JSON bodies are. */
  lemma {:induction false} ReloadsTheSameIff(c: Codec, rows: seq<Row>)
    requires Faithful(c) && Verifies(c, rows)
    ensures LoadOf(c, WriteAll(c, rows)) == Loaded(rows) <==> forall row :: row in rows ==> Reread(c, row) == row.body
    ensures AllJson(rows) ==> LoadOf(c, WriteAll(c, rows)) == Loaded(rows)
  {
    LoadWritten(c, rows);
    RereadSameIff(c, rows);
    if forall row :: row in rows ==> Reread(c, row) == row.body {
      UnchangedSurvive(c, rows);
    }
    forall row | row in rows && IsJson(row.body)
      ensures Reread(c, row) == row.body
    {
      assert ReadsBack(c, row);
    }
  }

  lemma {:induction false} RereadSameIff(c: Codec, rows: seq<Row>)
    requires Faithful(c)
    ensures RereadAll(c, rows) == rows <==> forall row :: row in rows ==> Reread(c, row) == row.body
  {
    if rows != [] {
      var init, row := rows[..|rows| - 1], rows[|rows| - 1];
      RereadSameIff(c, init);
      assert rows == init + [row];
      assert RereadAll(c, rows)[..|rows| - 1] == RereadAll(c, init);
      assert forall x :: x in rows <==> x in init || x == row;
    }
  }

  lemma {:induction false} UnchangedSurvive(c: Codec, rows: seq<Row>)
    requires Faithful(c) && Verifies(c, rows) && forall row :: row in rows ==> Reread(c, row) == row.body
    ensures AllSurvive(c, rows)
  {
    if rows != [] {
      var init, row := rows[..|rows| - 1], rows[|rows| - 1];
      assert rows == init + [row] && row in rows;
      UnchangedSurvive(c, init);
    }
  }

  // ---------- runs ----------

  datatype Op = AppendOp(body: Body) | ReloadOp

  datatype Disk = Disk(file: seq<string>, rows: seq<Row>)

  /** A reload throws the memory away and reads the file again; `None` when that
      raises. */
  function Do(c: Codec, d: Disk, op: Op): Option<Disk> {
    match op
    case AppendOp(body) =>
      var row := NextRow(c, d.rows, body);
      Some(Disk(d.file + [Write(c, row)], d.rows + [row]))
    case ReloadOp =>
      var r := LoadOf(c, d.file);
      if r.Loaded? then Some(Disk(d.file, r.rows)) else None
  }

  function DoAll(c: Codec, d: Disk, ops: seq<Op>): Option<Disk> {
    if ops == [] then Some(d)
    else
      var d1 := DoAll(c, d, ops[..|ops| - 1]);
      if d1.None? then None else Do(c, d1.value, ops[|ops| - 1])
  }

  function Appended(ops: seq<Op>): seq<Body> {
    if ops == [] then []
    else
      Appended(ops[..|ops| - 1]) + (if ops[|ops| - 1].AppendOp? then [ops[|ops| - 1].body] else [])
  }

  /** The chain of these bodies. */
  function Chain(c: Codec, bodies: seq<Body>): (r: seq<Row>)
    ensures |r| == |bodies| && Verifies(c, r)
  {
    if bodies == [] then []
    else
      var before := Chain(c, bodies[..|bodies| - 1]);
      AppendVerifies(c, before, bodies[|bodies| - 1]);
      before + [NextRow(c, before, bodies[|bodies| - 1])]
  }

  /** What has been appended so far can be read back. */
  ghost predicate Readable(c: Codec, ops: seq<Op>)
    requires Faithful(c)
  {
    AllSurvive(c, Chain(c, Appended(ops)))
  }

  /** The same hashes; bodies as appended or as read back. */
  predicate SameHashes(rows: seq<Row>, chain: seq<Row>) {
    |rows| == |chain| && forall i :: 0 <= i < |rows| ==> rows[i].hash == chain[i].hash
  }

  lemma {:induction false} RereadSameHashes(c: Codec, rows: seq<Row>)
    requires Faithful(c)
    ensures SameHashes(RereadAll(c, rows), rows)
  {
    if rows != [] {
      RereadSameHashes(c, rows[..|rows| - 1]);
    }
  }

  lemma {:induction false} ChainNext(c: Codec, bodies: seq<Body>, body: Body)
    ensures var chain := Chain(c, bodies);
            && Chain(c, bodies + [body]) == chain + [NextRow(c, chain, body)]
            && WriteAll(c, Chain(c, bodies + [body])) == WriteAll(c, chain) + [Write(c, NextRow(c, chain, body))]
  {
    var chain := Chain(c, bodies);
    assert (bodies + [body])[..|bodies|] == bodies;
    assert (chain + [NextRow(c, chain, body)])[..|chain|] == chain;
  }

  /** What a run leaves: the file is the written chain of the appended bodies, the
      memory has the same hashes. */
  ghost predicate Recorded(c: Codec, ops: seq<Op>, d: Disk) {
    var chain := Chain(c, Appended(ops));
    d.file == WriteAll(c, chain) && SameHashes(d.rows, chain)
  }

  lemma {:induction false} AppendedNext(ops: seq<Op>, op: Op)
    ensures Appended(ops + [op]) == if op.AppendOp? then Appended(ops) + [op.body] else Appended(ops)
  {
    assert (ops + [op])[..|ops|] == ops;
    assert Appended(ops) + [] == Appended(ops);
  }

  lemma {:induction false} SameHashesNext(rows: seq<Row>, chain: seq<Row>, row: Row)
    requires SameHashes(rows, chain)
    ensures SameHashes(rows + [row], chain + [row])
  {
  }

  lemma {:induction false} AppendRecorded(c: Codec, ops: seq<Op>, d: Disk, op: Op)
    requires op.AppendOp? && Recorded(c, ops, d)
    ensures Do(c, d, op).Some? && Recorded(c, ops + [op], Do(c, d, op).value)
  {
    var chain := Chain(c, Appended(ops));
    AppendedNext(ops, op);
    ChainNext(c, Appended(ops), op.body);
    assert Head(d.rows) == Head(chain);
    SameHashesNext(d.rows, chain, NextRow(c, chain, op.body));
  }

  lemma {:induction false} ReloadRecorded(c: Codec, ops: seq<Op>, d: Disk)
    requires Faithful(c) && Recorded(c, ops, d)
    ensures Do(c, d, ReloadOp).Some? <==> Readable(c, ops)
    ensures Readable(c, ops) ==> Recorded(c, ops + [ReloadOp], Do(c, d, ReloadOp).value)
  {
    var chain := Chain(c, Appended(ops));
    AppendedNext(ops, ReloadOp);
    LoadWritten(c, chain);
    RereadSameHashes(c, chain);
  }

  /** Every reload of the run finds what was appended before it readable. */
  ghost predicate ReloadsReadable(c: Codec, ops: seq<Op>)
    requires Faithful(c)
  {
    forall k :: 0 <= k < |ops| && ops[k].ReloadOp? ==> Readable(c, ops[..k])
  }

  lemma {:induction false} ReloadsReadableNext(c: Codec, ops: seq<Op>, op: Op)
    requires Faithful(c)
    ensures ReloadsReadable(c, ops + [op]) <==> ReloadsReadable(c, ops) && (op.ReloadOp? ==> Readable(c, ops))
  {
    var all := ops + [op];
    assert all[..|ops|] == ops && all[|ops|] == op;
    assert forall k :: 0 <= k < |ops| ==> all[..k] == ops[..k] && all[k] == ops[k];
  }

  lemma {:induction false} RunNext(c: Codec, ops: seq<Op>, op: Op)
    ensures var d := DoAll(c, Disk([], []), ops);
            DoAll(c, Disk([], []), ops + [op]) == if d.None? then None else Do(c, d.value, op)
  {
    assert (ops + [op])[..|ops|] == ops;
  }

  lemma {:induction false} RunRecorded(c: Codec, ops: seq<Op>)
    requires Faithful(c)
    ensures DoAll(c, Disk([], []), ops).Some? <==> ReloadsReadable(c, ops)
    ensures DoAll(c, Disk([], []), ops).Some? ==> Recorded(c, ops, DoAll(c, Disk([], []), ops).value)
  {
    if ops != [] {
      var init, op := ops[..|ops| - 1], ops[|ops| - 1];
      assert ops == init + [op];
      RunRecorded(c, init);
      RunNext(c, init, op);
      ReloadsReadableNext(c, init, op);
      var d := DoAll(c, Disk([], []), init);
      if d.Some? {
        if op.AppendOp? {
          AppendRecorded(c, init, d.value, op);
        } else {
          ReloadRecorded(c, init, d.value);
        }
      }
    }
  }

  /** A run of appends and reloads on a new log raises nowhere if and only if at
      every reload all rows appended before it survive writing and reading. Then
      the file holds the chain of the appended bodies in order, the memory has its
      hashes, and one more load succeeds if and only if all rows survive. */
  lemma {:induction false} RunsReloadIff(c: Codec, ops: seq<Op>)
    requires Faithful(c)
    ensures DoAll(c, Disk([], []), ops).Some?
            <==> forall k :: 0 <= k < |ops| && ops[k].ReloadOp? ==> Readable(c, ops[..k])
    ensures DoAll(c, Disk([], []), ops).Some? ==>
              var d := DoAll(c, Disk([], []), ops).value;
              Recorded(c, ops, d) && (LoadOf(c, d.file).Loaded? <==> Readable(c, ops))
  {
    RunRecorded(c, ops);
    LoadWritten(c, Chain(c, Appended(ops)));
  }

  lemma {:induction false} OneRow(c: Codec, body: Body)
    ensures Appended([AppendOp(body)]) == [body] && Chain(c, [body]) == [NextRow(c, [], body)]
  {
    assert [AppendOp(body)][..0] == [] && [body][..0] == [] && [] + [body] == [body];
  }

  lemma {:induction false} OneRowReadable(c: Codec, body: Body)
    requires Faithful(c) && ReadsBack(c, NextRow(c, [], body)) && Readable(c, [AppendOp(body)])
    ensures Survives(c, NextRow(c, [], body))
  {
    OneRow(c, body);
    assert NextRow(c, [], body) in Chain(c, Appended([AppendOp(body)]));
  }

  /** One row whose text changes on the way to the file and back: the untouched
      log does not reload. */
  lemma {:induction false} LostRowBreaksReload(c: Codec, body: Body)
    requires Faithful(c) && ReadsBack(c, NextRow(c, [], body)) && !Survives(c, NextRow(c, [], body))
    ensures DoAll(c, Disk([], []), [AppendOp(body)] + [ReloadOp]).None?
  {
    var ops := [AppendOp(body)];
    RunRecorded(c, ops + [ReloadOp]);
    ReloadsReadableNext(c, ops, ReloadOp);
    if Readable(c, ops) {
      OneRowReadable(c, body);
    }
  }

  // ---------- the head commits to the chain ----------

  function Preimages(c: Codec, rows: seq<Row>): seq<string> {
    if rows == [] then [] else Preimages(c, rows[..|rows| - 1]) + [Preimage(c, rows)]
  }

  /** No two of the strings these chains hash collide, and none hashes to the
      genesis value. */
  ghost predicate NoCollision(c: Codec, a: seq<Row>, b: seq<Row>) {
    && (forall x, y :: x in Preimages(c, a) && y in Preimages(c, b) && Digest(c, x) == Digest(c, y) ==> x == y)
    && (forall x :: x in Preimages(c, a) || x in Preimages(c, b) ==> Digest(c, x) != GENESIS)
  }

  lemma {:induction false} SplitPrefix(p: string, q: string, x: string, y: string)
    requires |p| == |q| && p + x == q + y
    ensures p == q && x == y
  {
    assert (p + x)[..|p|] == p && (q + y)[..|q|] == q;
    assert (p + x)[|p|..] == x && (q + y)[|q|..] == y;
  }

  lemma {:induction false} HeadLength(c: Codec, rows: seq<Row>)
    requires Proper(c) && Verifies(c, rows)
    ensures |Head(rows)| == 64
  {
  }

  /** Equal heads of two non-empty chains: the last rows and the heads before them
      are equal too. */
  lemma {:induction false} LastRowsEqual(c: Codec, a: seq<Row>, b: seq<Row>)
    requires Proper(c) && a != [] && b != [] && Verifies(c, a) && Verifies(c, b) && AllJson(a) && AllJson(b)
    requires Preimage(c, a) == Preimage(c, b) && Head(a) == Head(b)
    ensures a[|a| - 1] == b[|b| - 1] && Head(a[..|a| - 1]) == Head(b[..|b| - 1])
  {
    var a0, b0 := a[..|a| - 1], b[..|b| - 1];
    var x, y := a[|a| - 1], b[|b| - 1];
    HeadLength(c, a0);
    HeadLength(c, b0);
    SplitPrefix(Head(a0), Head(b0), Payload(c, x.body, x.prevHash), Payload(c, y.body, y.prevHash));
    assert SameContents(c, x.body, x.prevHash, y.body, y.prevHash);
  }

  lemma {:induction false} LastPreimage(c: Codec, rows: seq<Row>)
    requires rows != []
    ensures Preimage(c, rows) in Preimages(c, rows)
    ensures forall s :: s in Preimages(c, rows[..|rows| - 1]) ==> s in Preimages(c, rows)
  {
    var init := Preimages(c, rows[..|rows| - 1]);
    assert Preimages(c, rows) == init + [Preimage(c, rows)];
    assert Preimages(c, rows)[|init|] == Preimage(c, rows);
  }

  /** Under equal heads both chains are empty or the strings hashed last are equal. */
  lemma {:induction false} SameLastPreimage(c: Codec, a: seq<Row>, b: seq<Row>)
    requires Verifies(c, a) && Verifies(c, b) && NoCollision(c, a, b) && Head(a) == Head(b)
    ensures a == [] <==> b == []
    ensures a != [] && b != [] ==> Preimage(c, a) == Preimage(c, b)
  {
    if a != [] {
      LastPreimage(c, a);
    }
    if b != [] {
      LastPreimage(c, b);
    }
  }

  lemma {:induction false} NoCollisionShrinks(c: Codec, a: seq<Row>, b: seq<Row>)
    requires a != [] && b != [] && NoCollision(c, a, b)
    ensures NoCollision(c, a[..|a| - 1], b[..|b| - 1])
  {
    LastPreimage(c, a);
    LastPreimage(c, b);
  }

  lemma {:induction false} HeadsBefore(c: Codec, a: seq<Row>, b: seq<Row>)
    requires a != [] && b != [] && Verifies(c, a) && Verifies(c, b)
    ensures Verifies(c, a[..|a| - 1]) && Verifies(c, b[..|b| - 1])
  {
  }

  lemma {:induction false} SameByLast(a: seq<Row>, b: seq<Row>)
    requires a != [] && b != []
    requires a[..|a| - 1] == b[..|b| - 1] && a[|a| - 1] == b[|b| - 1]
    ensures a == b
  {
    assert a == a[..|a| - 1] + [a[|a| - 1]] && b == b[..|b| - 1] + [b[|b| - 1]];
  }

  /** Two chains of JSON rows that verify and end in the same hash have identical
      rows, unless the hash collides on one of the strings they hash. */
  lemma {:induction false} SameHeadSameRows(c: Codec, a: seq<Row>, b: seq<Row>)
    requires Proper(c) && Verifies(c, a) && Verifies(c, b) && AllJson(a) && AllJson(b)
    requires NoCollision(c, a, b) && Head(a) == Head(b)
    ensures a == b
    decreases |a|
  {
    SameLastPreimage(c, a, b);
    if a != [] {
      LastRowsEqual(c, a, b);
      NoCollisionShrinks(c, a, b);
      HeadsBefore(c, a, b);
      SameHeadSameRows(c, a[..|a| - 1], b[..|b| - 1]);
      SameByLast(a, b);
    }
  }

  /** So two files that load and end in the same hash hold the same rows. */
  lemma {:induction false} SameHeadSameFiles(c: Codec, f: seq<string>, g: seq<string>)
    requires Proper(c) && Faithful(c) && LoadOf(c, f).Loaded? && LoadOf(c, g).Loaded?
    requires var a, b := LoadOf(c, f).rows, LoadOf(c, g).rows; NoCollision(c, a, b) && Head(a) == Head(b)
    ensures LoadOf(c, f) == LoadOf(c, g)
  {
    LoadedVerifies(c, f);
    LoadedVerifies(c, g);
    SameHeadSameRows(c, LoadOf(c, f).rows, LoadOf(c, g).rows);
  }
}
