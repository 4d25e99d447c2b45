/** The Redis cache of job bodies: entries written as "<version>|<body>", a write that refuses
    to go back, and tombstones with an empty body. */
module JobCache {
  import opened Domain

  /******* What is cached *******/

  datatype JobOut = JobOut(
    id: JobId, idempotencyKey: Option<string>, recipient: string, channel: Channel, payload: string,
    priority: int, status: Status, retrying: bool, runAt: Time, attempts: int, maxAttempts: int,
    lastError: Option<ErrorText>, callbackUrl: Option<string>, version: int, createdAt: Time,
    updatedAt: Time, sentAt: Option<Time>)

  function FromDomain(row: Job): JobOut {
    JobOut(row.id, row.idempotencyKey, row.recipient, row.channel, row.payload, row.priority, row.status,
           row.IsRetrying(), row.runAt, row.attempts, row.maxAttempts, row.lastError, row.callbackUrl,
           row.version, row.createdAt, row.updatedAt, row.sentAt)
  }

  // What a reader sees is the row's own columns; `retrying` means that it waits after a failure.
  ghost predicate Shows(o: JobOut, row: Job) {
    && o.id == row.id && o.idempotencyKey == row.idempotencyKey
    && o.recipient == row.recipient && o.channel == row.channel && o.payload == row.payload
    && o.priority == row.priority && o.callbackUrl == row.callbackUrl
    && o.status == row.status && o.runAt == row.runAt && o.lastError == row.lastError
    && (o.retrying <==> row.status.Pending? && row.attempts > 0 && row.lastError.Some?)
    && o.attempts == row.attempts && o.maxAttempts == row.maxAttempts && o.version == row.version
    && o.createdAt == row.createdAt && o.updatedAt == row.updatedAt && o.sentAt == row.sentAt
  }

  lemma ShowsItsRow(o: JobOut, row: Job)
    requires o == FromDomain(row)
    ensures Shows(o, row)
  {
  }

  /** A version and the text stored with it: a body, or "" for a tombstone. */
  datatype Entry = Entry(version: nat, body: string)

  // A write keeps a strictly newer entry and replaces any other.
  function SetIfNewer(current: Option<Entry>, entry: Entry): Option<Entry> {
    if current.Some? && current.value.version > entry.version then current else Some(entry)
  }

  /******* The text of an entry *******/

  function Digit(n: nat): char
    requires n < 10
  {
    '0' + n as char
  }

  function Decimal(n: nat): string {
    if n < 10 then [Digit(n)] else Decimal(n / 10) + [Digit(n % 10)]
  }

  predicate IsDigit(c: char) { '0' <= c <= '9' }

  function ParseNat(s: string): Option<nat> {
    if s == "" || !IsDigit(s[|s| - 1]) then None
    else
      var d := (s[|s| - 1] - '0') as nat;
      if |s| == 1 then Some(d)
      else
        var rest := ParseNat(s[..|s| - 1]);
        if rest.None? then None else Some(10 * rest.value + d)
  }

  // The first '|', as Python's partition and Lua's plain find see it.
  function Bar(s: string): nat { if s == "" || s[0] == '|' then 0 else 1 + Bar(s[1..]) }

  lemma {:induction false} BarWithin(s: string)
    ensures Bar(s) <= |s|
    ensures Bar(s) < |s| ==> s[Bar(s)] == '|'
  {
    if s != "" && s[0] != '|' {
      BarWithin(s[1..]);
    }
  }

  function Text(e: Entry): string { Decimal(e.version) + "|" + e.body }

  /** What a reader and the script make of a stored text: its version, if the part before the
      first bar is a number, and everything after that bar. */
  function Parse(raw: string): Option<Entry> {
    BarWithin(raw);
    if Bar(raw) == |raw| then None
    else
      var version := ParseNat(raw[..Bar(raw)]);
      if version.None? then None else Some(Entry(version.value, raw[Bar(raw) + 1..]))
  }

  // Everything after the first bar, as a reader takes it.
  function BodyOf(raw: string): string {
    BarWithin(raw);
    if Bar(raw) == |raw| then "" else raw[Bar(raw) + 1..]
  }

  lemma {:induction false} DecimalParses(n: nat)
    ensures ParseNat(Decimal(n)) == Some(n)
    ensures forall i :: 0 <= i < |Decimal(n)| ==> IsDigit(Decimal(n)[i])
  {
    if n >= 10 {
      DecimalParses(n / 10);
      assert Decimal(n)[..|Decimal(n)| - 1] == Decimal(n / 10);
      assert n == 10 * (n / 10) + n % 10;
    }
  }

  lemma {:induction false} BarAfterDigits(digits: string, rest: string)
    requires forall i :: 0 <= i < |digits| ==> IsDigit(digits[i])
    ensures Bar(digits + "|" + rest) == |digits|
  {
    if digits == "" {
      assert (digits + "|" + rest)[0] == '|';
    } else {
      BarAfterDigits(digits[1..], rest);
      assert (digits + "|" + rest)[1..] == digits[1..] + "|" + rest;
      assert (digits + "|" + rest)[0] == digits[0];
    }
  }

  /** Every entry is read back as it was written, whatever bars its body contains. */
  lemma ParseText(e: Entry)
    ensures Parse(Text(e)) == Some(e)
  {
    DecimalParses(e.version);
    BarAfterDigits(Decimal(e.version), e.body);
    var raw := Text(e);
    var k := |Decimal(e.version)|;
    assert raw[..k] == Decimal(e.version);
    assert raw[k + 1..] == e.body;
  }

  /******* The cache *******/

  /** How a body is turned into text and back. */
  datatype Json = Json(encode: JobOut -> string, decode: string -> Option<JobOut>)
  {
    ghost predicate Faithful() {
      forall o :: encode(o) != "" && decode(encode(o)) == Some(o)
    }
  }

  class JobCache {
    var jobs: map<JobId, string>
    var keys: map<string, (JobId, string)>
    const json: Json

    constructor (json: Json)
      ensures this.json == json && jobs == map[] && keys == map[]
    {
      this.json := json;
      jobs, keys := map[], map[];
    }

    // The entry under a job's key, as far as the script can read it.
    function EntryOf(id: JobId): Option<Entry>
      reads this
    {
      if id in jobs then Parse(jobs[id]) else None
    }

    /** The body cached for a job; a tombstone counts as a miss. */
    method Get(id: JobId) returns (hit: Option<JobOut>)
      ensures hit == if id in jobs && BodyOf(jobs[id]) != "" then json.decode(BodyOf(jobs[id])) else None
      ensures EntryOf(id).Some? ==>
                hit == if EntryOf(id).value.body == "" then None else json.decode(EntryOf(id).value.body)
    {
      if id !in jobs {
        return None;
      }
      var raw := jobs[id];
      BarWithin(raw);
      if Bar(raw) == |raw| {
        return None;
      }
      var body := raw[Bar(raw) + 1..];
      if body == "" {
        return None;
      }
      return json.decode(body);
    }

    // The script: compare versions, then set.
    method Write(id: JobId, version: nat, body: string) returns (written: bool)
      modifies this`jobs
      ensures EntryOf(id) == SetIfNewer(old(EntryOf(id)), Entry(version, body))
      ensures written <==> !(old(EntryOf(id)).Some? && old(EntryOf(id)).value.version > version)
      ensures forall j :: j != id ==> (j in jobs <==> j in old(jobs)) && (j in jobs ==> jobs[j] == old(jobs)[j])
    {
      if id in jobs {
        var raw := jobs[id];
        BarWithin(raw);
        if Bar(raw) < |raw| {
          var cached := ParseNat(raw[..Bar(raw)]);
          if cached.Some? && cached.value > version {
            return false;
          }
        }
      }
      ParseText(Entry(version, body));
      jobs := jobs[id := Decimal(version) + "|" + body];
      return true;
    }

    /** Caches a job read from Postgres, unless a newer version is cached already. */
    method Put(job: JobOut) returns (written: bool)
      requires job.version >= 0
      modifies this`jobs
      ensures EntryOf(job.id) == SetIfNewer(old(EntryOf(job.id)), Entry(job.version, json.encode(job)))
      ensures forall j :: j != job.id ==> EntryOf(j) == old(EntryOf(j))
      ensures forall j :: j in jobs && j != job.id ==> j in old(jobs)
    {
      written := Write(job.id, job.version, json.encode(job));
    }

    /** Leaves a tombstone at the new version. */
    method Invalidate(id: JobId, version: nat)
      modifies this`jobs
      ensures EntryOf(id) == SetIfNewer(old(EntryOf(id)), Entry(version, ""))
      ensures forall j :: j != id ==> EntryOf(j) == old(EntryOf(j))
    {
      var _ := Write(id, version, "");
    }

    method GetIdempotency(key: string) returns (hit: Option<(JobId, string)>)
      ensures hit == if key in keys then Some(keys[key]) else None
    {
      if key in keys { return Some(keys[key]); }
      return None;
    }

    method PutIdempotency(key: string, id: JobId, hash: string)
      modifies this`keys
      ensures keys == old(keys)[key := (id, hash)]
    {
      keys := keys[key := (id, hash)];
    }
  }

  /** A body put into an empty or older cache is what the next reader gets. */
  method PutThenGet(cache: JobCache, job: JobOut) returns (hit: Option<JobOut>)
    requires cache.json.Faithful() && job.version >= 0
    requires cache.EntryOf(job.id).Some? ==> cache.EntryOf(job.id).value.version <= job.version
    modifies cache
    ensures hit == Some(job)
  {
    var _ := cache.Put(job);
    hit := cache.Get(job.id);
  }

  /******* Writes in any order *******/

  function WriteAll(current: Option<Entry>, entries: seq<Entry>): Option<Entry> {
    if entries == [] then current
    else SetIfNewer(WriteAll(current, entries[..|entries| - 1]), entries[|entries| - 1])
  }

  /** However many writes arrive in whatever order, the cache ends at the greatest version among
      them and what it held, with a text that was written at that version. */
  lemma {:induction false} EndsAtTheMaximum(current: Option<Entry>, entries: seq<Entry>)
    requires current.Some? || entries != []
    ensures var end := WriteAll(current, entries);
            && end.Some?
            && (current.Some? ==> current.value.version <= end.value.version)
            && (forall e :: e in entries ==> e.version <= end.value.version)
            && (end == current || end.value in entries)
  {
    if entries != [] {
      var before, last := entries[..|entries| - 1], entries[|entries| - 1];
      if current.Some? || before != [] {
        EndsAtTheMaximum(current, before);
      }
      assert entries == before + [last];
    }
  }
}
