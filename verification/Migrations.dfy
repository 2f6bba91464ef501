/** The production migration runner: journal validation, the history check, the two-stage apply
    around the enum boundary, and concurrent runners that crash, fail and retry under one lock. */
module Migrations {
  import opened Wrappers

  const ENUM_BOUNDARY := "0152_electricity_rejected_contract"
  const RENUMBERED := "0192_contract_numbers"
  const LEGACY_DIGEST := "f8aa294037d5d2749a007f5e256107316b063dfb8b6b2b1d3f44c5a4dffb6d3b"
  const MAX_SAFE_INTEGER := 9007199254740991

  /** A journal entry together with the digest of its SQL file. */
  datatype Entry = Entry(tag: string, when: int, digest: string)

  /** One recorded migration, as the metadata table keeps it. */
  datatype Row = Row(id: nat, hash: string, createdAt: int)

  // ---------------------------------------------------------------- the journal

  datatype JournalError = Empty | BadEntry

  predicate TagChar(c: char) {
    'a' <= c <= 'z' || 'A' <= c <= 'Z' || '0' <= c <= '9' || c == '_' || c == '-'
  }

  predicate ValidTag(tag: string) {
    tag != "" && forall k :: 0 <= k < |tag| ==> TagChar(tag[k])
  }

  /** A tag is one or more ASCII letters, digits, underscores and hyphens. */
  lemma TagIs(tag: string)
    ensures ValidTag(tag) <==> |tag| > 0 && forall c :: c in tag ==>
      96 < c as int < 123 || 64 < c as int < 91 || 47 < c as int < 58 || c as int == 95 || c as int == 45
  {
    forall k | 0 <= k < |tag| ensures tag[k] in tag {}
  }

  /** Unique well-formed tags and strictly increasing positive timestamps. */
  ghost predicate ValidJournal(journal: seq<Entry>) {
    && journal != []
    && (forall i :: 0 <= i < |journal| ==> ValidTag(journal[i].tag) && 0 < journal[i].when <= MAX_SAFE_INTEGER)
    && (forall i, j :: 0 <= i < j < |journal| ==> journal[i].when < journal[j].when)
    && (forall i, j :: 0 <= i < j < |journal| ==> journal[i].tag != journal[j].tag)
  }

  ghost predicate Reads(raw: seq<Option<Entry>>, journal: seq<Entry>) {
    |raw| == |journal| && forall k :: 0 <= k < |raw| ==> raw[k] == Some(journal[k])
  }

  /** An entry that is malformed, repeats a tag or does not move time forward spoils any journal it is in. */
  lemma BadEntrySpoils(raw: seq<Option<Entry>>, entries: seq<Entry>, i: nat, journal: seq<Entry>)
    requires i < |raw| && raw[i].Some? && Reads(raw[..i], entries) && Reads(raw, journal)
    requires var entry := raw[i].value;
      || !ValidTag(entry.tag) || (exists k :: 0 <= k < i && entries[k].tag == entry.tag)
      || entry.when > MAX_SAFE_INTEGER || entry.when <= (if i == 0 then 0 else entries[i - 1].when)
    ensures !ValidJournal(journal)
  {
    forall k | 0 <= k < i ensures journal[k] == entries[k] {
      assert raw[k] == raw[..i][k];
    }
    assert journal[i] == raw[i].value;
  }

  /** `None` stands for an entry that is not an object with a text tag and an integer timestamp. */
  method ReadJournal(raw: seq<Option<Entry>>) returns (r: Result<seq<Entry>, JournalError>)
    ensures r.Ok? ==> Reads(raw, r.value) && ValidJournal(r.value)
    ensures r.Err? ==> !exists journal :: Reads(raw, journal) && ValidJournal(journal)
    ensures r == Err(Empty) <==> raw == []
  {
    if |raw| == 0 { return Err(Empty); }
    var entries: seq<Entry>, tags: set<string>, previous := [], {}, 0;
    for i := 0 to |raw|
      invariant Reads(raw[..i], entries)
      invariant tags == set k | 0 <= k < i :: entries[k].tag
      invariant previous == if i == 0 then 0 else entries[i - 1].when
      invariant i > 0 ==> ValidJournal(entries)
    {
      if raw[i].None? {
        return Err(BadEntry);
      }
      var entry := raw[i].value;
      if !ValidTag(entry.tag) || entry.tag in tags || entry.when > MAX_SAFE_INTEGER || entry.when <= previous {
        forall journal | Reads(raw, journal) ensures !ValidJournal(journal) {
          BadEntrySpoils(raw, entries, i, journal);
        }
        return Err(BadEntry);
      }
      tags := tags + {entry.tag};
      previous := entry.when;
      entries := entries + [entry];
    }
    assert raw[..|raw|] == raw;
    return Ok(entries);
  }

  // ---------------------------------------------------------------- the history check

  datatype HistoryError = NewerThanJournal | Mismatch(tag: string) | MissingBehindHead(tag: string)

  function At(rows: seq<Row>, when: int): seq<Row> {
    if rows == [] then []
    else (if rows[0].createdAt == when then [rows[0]] else []) + At(rows[1..], when)
  }

  function Latest(rows: seq<Row>): int {
    if rows == [] then 0
    else var rest := Latest(rows[..|rows| - 1]); var at := rows[|rows| - 1].createdAt; if at > rest then at else rest
  }

  predicate HashAccepted(entry: Entry, hash: string) {
    hash == entry.digest || (entry.tag == RENUMBERED && hash == LEGACY_DIGEST)
  }

  function EntryCheck(entry: Entry, rows: seq<Row>, requireAll: bool): Result<(), HistoryError> {
    var found := At(rows, entry.when);
    if |found| > 1 || (|found| == 1 && !HashAccepted(entry, found[0].hash)) then Err(Mismatch(entry.tag))
    else if |found| == 0 && (requireAll || entry.when <= Latest(rows)) then Err(MissingBehindHead(entry.tag))
    else Ok(())
  }

  function CheckFrom(journal: seq<Entry>, i: nat, rows: seq<Row>, requireAll: bool): Result<(), HistoryError>
    requires i <= |journal|
    decreases |journal| - i
  {
    if i == |journal| then Ok(())
    else
      var check := EntryCheck(journal[i], rows, requireAll);
      if check.Err? then check else CheckFrom(journal, i + 1, rows, requireAll)
  }

  function HistoryCheck(journal: seq<Entry>, rows: seq<Row>, requireAll: bool): Result<(), HistoryError>
    requires journal != []
  {
    if Latest(rows) > journal[|journal| - 1].when then Err(NewerThanJournal)
    else CheckFrom(journal, 0, rows, requireAll)
  }

  /** The history check as the code runs it: one pass for the newest row, one over the journal. */
  method VerifyHistory(journal: seq<Entry>, rows: seq<Row>, requireAll: bool)
    returns (r: Result<(), HistoryError>)
    requires journal != []
    ensures r == HistoryCheck(journal, rows, requireAll)
  {
    var latest := 0;
    for k := 0 to |rows|
      invariant latest == Latest(rows[..k])
    {
      assert rows[..k + 1][..k] == rows[..k];
      if rows[k].createdAt > latest { latest := rows[k].createdAt; }
    }
    assert rows[..|rows|] == rows;
    if latest > journal[|journal| - 1].when { return Err(NewerThanJournal); }
    for i := 0 to |journal|
      invariant CheckFrom(journal, 0, rows, requireAll) == CheckFrom(journal, i, rows, requireAll)
    {
      var entry := journal[i];
      var found := At(rows, entry.when);
      if |found| > 1 || (|found| == 1 && found[0].hash != entry.digest
                         && !(entry.tag == RENUMBERED && found[0].hash == LEGACY_DIGEST)) {
        return Err(Mismatch(entry.tag));
      }
      if |found| == 0 && (requireAll || entry.when <= latest) {
        return Err(MissingBehindHead(entry.tag));
      }
    }
    return Ok(());
  }

  /** Recorded once, with an accepted digest. */
  predicate RecordedOnce(entry: Entry, rows: seq<Row>) {
    |At(rows, entry.when)| == 1 && HashAccepted(entry, At(rows, entry.when)[0].hash)
  }

  predicate NotRecorded(entry: Entry, rows: seq<Row>) {
    At(rows, entry.when) == []
  }

  /** What a good history looks like: the first `n` entries are recorded once each with an accepted
      digest, no later entry is recorded, and no row at all is as new as the first pending entry. */
  ghost predicate AppliedPrefix(journal: seq<Entry>, rows: seq<Row>, n: nat) {
    && n <= |journal|
    && (forall i {:trigger RecordedOnce(journal[i], rows)} :: 0 <= i < n ==> RecordedOnce(journal[i], rows))
    && (forall i {:trigger NotRecorded(journal[i], rows)} :: n <= i < |journal| ==> NotRecorded(journal[i], rows))
    && (forall k :: 0 <= k < |rows| ==>
          && (journal != [] ==> rows[k].createdAt <= journal[|journal| - 1].when)
          && (n < |journal| ==> rows[k].createdAt < journal[n].when))
  }

  lemma {:induction false} LatestIsMaximum(rows: seq<Row>)
    ensures Latest(rows) >= 0
    ensures forall k :: 0 <= k < |rows| ==> rows[k].createdAt <= Latest(rows)
    ensures Latest(rows) == 0 || exists k :: 0 <= k < |rows| && rows[k].createdAt == Latest(rows)
  {
    if rows != [] { LatestIsMaximum(rows[..|rows| - 1]); }
  }

  lemma {:induction false} AtFinds(rows: seq<Row>, when: int)
    ensures forall k :: 0 <= k < |At(rows, when)| ==> At(rows, when)[k] in rows && At(rows, when)[k].createdAt == when
    ensures At(rows, when) == [] <==> forall k :: 0 <= k < |rows| ==> rows[k].createdAt != when
  {
    if rows != [] {
      AtFinds(rows[1..], when);
      if At(rows, when) == [] {
        forall k | 0 <= k < |rows| ensures rows[k].createdAt != when {
          if k > 0 { assert rows[k] == rows[1..][k - 1]; }
        }
      }
    }
  }

  lemma {:induction false} CheckPassesIff(journal: seq<Entry>, i: nat, rows: seq<Row>, requireAll: bool)
    requires i <= |journal|
    ensures CheckFrom(journal, i, rows, requireAll).Ok? <==>
            forall k :: i <= k < |journal| ==> EntryCheck(journal[k], rows, requireAll).Ok?
    decreases |journal| - i
  {
    if i < |journal| { CheckPassesIff(journal, i + 1, rows, requireAll); }
  }

  /** The final check passes exactly when every entry is recorded once and nothing is newer. */
  lemma CompleteIff(journal: seq<Entry>, rows: seq<Row>)
    requires ValidJournal(journal)
    ensures HistoryCheck(journal, rows, true).Ok? <==> AppliedPrefix(journal, rows, |journal|)
  {
    LatestIsMaximum(rows);
    CheckPassesIff(journal, 0, rows, true);
    if AppliedPrefix(journal, rows, |journal|) {
      forall k | 0 <= k < |journal| ensures EntryCheck(journal[k], rows, true).Ok? {
        assert RecordedOnce(journal[k], rows);
      }
    }
    if HistoryCheck(journal, rows, true).Ok? {
      forall k | 0 <= k < |journal|
        ensures |At(rows, journal[k].when)| == 1 && HashAccepted(journal[k], At(rows, journal[k].when)[0].hash)
      {
        assert EntryCheck(journal[k], rows, true).Ok?;
      }
    }
  }

  function Unapplied(journal: seq<Entry>, rows: seq<Row>, i: nat): (n: nat)
    requires i <= |journal|
    ensures i <= n <= |journal|
    decreases |journal| - i
  {
    if i == |journal| || At(rows, journal[i].when) == [] then i else Unapplied(journal, rows, i + 1)
  }

  /** How many leading entries are recorded. */
  function Applied(journal: seq<Entry>, rows: seq<Row>): (n: nat)
    ensures n <= |journal|
  {
    Unapplied(journal, rows, 0)
  }

  lemma {:induction false} UnappliedIsFirst(journal: seq<Entry>, rows: seq<Row>, i: nat, n: nat)
    requires i <= |journal| && n == Unapplied(journal, rows, i)
    ensures forall k :: i <= k < n ==> At(rows, journal[k].when) != []
    ensures n < |journal| ==> At(rows, journal[n].when) == []
    decreases |journal| - i
  {
    if i < |journal| && At(rows, journal[i].when) != [] {
      UnappliedIsFirst(journal, rows, i + 1, n);
    }
  }

  lemma {:induction false} PrefixStops(journal: seq<Entry>, rows: seq<Row>, n: nat, i: nat)
    requires AppliedPrefix(journal, rows, n) && i <= n
    ensures Unapplied(journal, rows, i) == n
    decreases n - i
  {
    if i < n {
      assert RecordedOnce(journal[i], rows);
      PrefixStops(journal, rows, n, i + 1);
    } else if n < |journal| {
      assert NotRecorded(journal[n], rows);
    }
  }

  lemma PrefixIsApplied(journal: seq<Entry>, rows: seq<Row>, n: nat)
    requires AppliedPrefix(journal, rows, n)
    ensures n == Applied(journal, rows)
  {
    PrefixStops(journal, rows, n, 0);
  }

  lemma AcceptedIsPrefix(journal: seq<Entry>, rows: seq<Row>)
    requires ValidJournal(journal) && HistoryCheck(journal, rows, false).Ok?
    ensures AppliedPrefix(journal, rows, Applied(journal, rows))
  {
    var n := Applied(journal, rows);
    LatestIsMaximum(rows);
    UnappliedIsFirst(journal, rows, 0, n);
    CheckPassesIff(journal, 0, rows, false);
    assert n < |journal| ==> EntryCheck(journal[n], rows, false).Ok?;
    assert n < |journal| ==> Latest(rows) < journal[n].when;
    forall i | 0 <= i < n
      ensures |At(rows, journal[i].when)| == 1 && HashAccepted(journal[i], At(rows, journal[i].when)[0].hash)
    {
      assert EntryCheck(journal[i], rows, false).Ok?;
    }
    forall i | n <= i < |journal| ensures At(rows, journal[i].when) == [] {
      AtFinds(rows, journal[i].when);
    }
  }

  lemma PrefixIsAccepted(journal: seq<Entry>, rows: seq<Row>, n: nat)
    requires ValidJournal(journal) && AppliedPrefix(journal, rows, n)
    ensures HistoryCheck(journal, rows, false).Ok?
  {
    LatestIsMaximum(rows);
    CheckPassesIff(journal, 0, rows, false);
    assert n < |journal| ==> Latest(rows) < journal[n].when;
    forall k | 0 <= k < |journal| ensures EntryCheck(journal[k], rows, false).Ok? {
      assert k < n ==> RecordedOnce(journal[k], rows);
      assert k >= n ==> NotRecorded(journal[k], rows);
    }
  }

  /** The opening check accepts exactly the histories that record a first part of the journal, as AppliedPrefix
      says; rows whose timestamps are in no journal entry may stand beside it. */
  lemma AcceptedIff(journal: seq<Entry>, rows: seq<Row>)
    requires ValidJournal(journal)
    ensures HistoryCheck(journal, rows, false).Ok? <==> AppliedPrefix(journal, rows, Applied(journal, rows))
  {
    if HistoryCheck(journal, rows, false).Ok? { AcceptedIsPrefix(journal, rows); }
    if AppliedPrefix(journal, rows, Applied(journal, rows)) {
      PrefixIsAccepted(journal, rows, Applied(journal, rows));
    }
  }

  // ---------------------------------------------------------------- the verdict, in terms of rows and entries

  /** The digest of the entry's own file, or the one the renumbered contract migration was first applied with. */
  predicate Vouches(entry: Entry, hash: string) {
    hash == entry.digest || (entry.tag == "0192_contract_numbers" && hash == LEGACY_DIGEST)
  }

  ghost predicate RecordedTwice(entry: Entry, rows: seq<Row>) {
    exists j, k :: 0 <= j < k < |rows| && rows[j].createdAt == entry.when && rows[k].createdAt == entry.when
  }

  /** A row at the entry's timestamp holds a digest that is not the entry's. */
  ghost predicate RecordedForeign(entry: Entry, rows: seq<Row>) {
    exists k :: 0 <= k < |rows| && rows[k].createdAt == entry.when && !Vouches(entry, rows[k].hash)
  }

  ghost predicate RecordedAtAll(entry: Entry, rows: seq<Row>) {
    exists k :: 0 <= k < |rows| && rows[k].createdAt == entry.when
  }

  ghost predicate AnyNotBefore(rows: seq<Row>, when: int) {
    exists k :: 0 <= k < |rows| && rows[k].createdAt >= when
  }

  lemma {:induction false} AtCounts(rows: seq<Row>, when: int)
    ensures |At(rows, when)| > 1 <==>
            exists j, k :: 0 <= j < k < |rows| && rows[j].createdAt == when && rows[k].createdAt == when
    ensures |At(rows, when)| == 1 ==>
            exists k :: 0 <= k < |rows| && rows[k].createdAt == when && At(rows, when)[0] == rows[k]
  {
    if rows != [] {
      AtCounts(rows[1..], when);
      AtFinds(rows[1..], when);
      AtShifts(rows, when);
    }
  }

  /** What the rest of the rows holds, the rows hold one place further on. */
  lemma AtShifts(rows: seq<Row>, when: int)
    requires rows != []
    ensures (exists k :: 0 <= k < |rows| - 1 && rows[1..][k].createdAt == when) <==>
            exists k :: 1 <= k < |rows| && rows[k].createdAt == when
    ensures forall k :: 0 <= k < |rows| - 1 ==> rows[1..][k] == rows[k + 1]
  {
    if k :| 0 <= k < |rows| - 1 && rows[1..][k].createdAt == when {
      assert rows[k + 1].createdAt == when;
    }
    if k :| 1 <= k < |rows| && rows[k].createdAt == when {
      assert rows[1..][k - 1].createdAt == when;
    }
  }

  lemma MismatchIff(entry: Entry, rows: seq<Row>)
    ensures var found := At(rows, entry.when);
      |found| > 1 || (|found| == 1 && !HashAccepted(entry, found[0].hash))
      <==> RecordedTwice(entry, rows) || RecordedForeign(entry, rows)
  {
    var found := At(rows, entry.when);
    AtCounts(rows, entry.when);
    AtFinds(rows, entry.when);
    if |found| == 1 {
      var k :| 0 <= k < |rows| && rows[k].createdAt == entry.when && found[0] == rows[k];
      if j :| 0 <= j < |rows| && rows[j].createdAt == entry.when && !Vouches(entry, rows[j].hash) {
        assert j == k;
      }
    }
  }

  /** The verdict on one entry. */
  lemma EntryVerdict(entry: Entry, rows: seq<Row>, requireAll: bool)
    requires entry.when > 0
    ensures EntryCheck(entry, rows, requireAll) ==
      if RecordedTwice(entry, rows) || RecordedForeign(entry, rows) then Err(Mismatch(entry.tag))
      else if !RecordedAtAll(entry, rows) && (requireAll || AnyNotBefore(rows, entry.when))
      then Err(MissingBehindHead(entry.tag))
      else Ok(())
  {
    MismatchIff(entry, rows);
    AtFinds(rows, entry.when);
    LatestIsMaximum(rows);
  }

  lemma {:induction false} CheckFails(journal: seq<Entry>, i: nat, rows: seq<Row>, requireAll: bool) returns (k: nat)
    requires i <= |journal| && CheckFrom(journal, i, rows, requireAll).Err?
    ensures i <= k < |journal| && CheckFrom(journal, i, rows, requireAll) == EntryCheck(journal[k], rows, requireAll)
    ensures forall j :: i <= j < k ==> EntryCheck(journal[j], rows, requireAll).Ok?
    decreases |journal| - i
  {
    if EntryCheck(journal[i], rows, requireAll).Err? {
      k := i;
    } else {
      k := CheckFails(journal, i + 1, rows, requireAll);
    }
  }

  /** An entry whose rows are as they must be. */
  ghost predicate WellRecorded(entry: Entry, rows: seq<Row>, requireAll: bool) {
    && !RecordedTwice(entry, rows) && !RecordedForeign(entry, rows)
    && (RecordedAtAll(entry, rows) || (!requireAll && !AnyNotBefore(rows, entry.when)))
  }

  /** A history passes the check exactly if no row is newer than the journal, no entry is recorded twice, every
      recorded digest is the entry's own or the legacy one, and no entry is missing that may not be. */
  lemma PassesIff(journal: seq<Entry>, rows: seq<Row>, requireAll: bool)
    requires ValidJournal(journal)
    ensures HistoryCheck(journal, rows, requireAll).Ok? <==>
      && !AnyNotBefore(rows, journal[|journal| - 1].when + 1)
      && forall i :: 0 <= i < |journal| ==> WellRecorded(journal[i], rows, requireAll)
  {
    LatestIsMaximum(rows);
    CheckPassesIff(journal, 0, rows, requireAll);
    forall i | 0 <= i < |journal|
      ensures EntryCheck(journal[i], rows, requireAll).Ok? <==> WellRecorded(journal[i], rows, requireAll)
    {
      EntryVerdict(journal[i], rows, requireAll);
    }
  }

  /** A refusal names its reason: a row newer than the journal; or the first entry that is not well recorded, as
      a mismatch just if it is recorded twice or under a foreign digest, and otherwise as missing. */
  lemma RefusalNamesReason(journal: seq<Entry>, rows: seq<Row>, requireAll: bool) returns (i: nat)
    requires ValidJournal(journal) && HistoryCheck(journal, rows, requireAll).Err?
    ensures HistoryCheck(journal, rows, requireAll) == Err(NewerThanJournal) <==>
            AnyNotBefore(rows, journal[|journal| - 1].when + 1)
    ensures HistoryCheck(journal, rows, requireAll) != Err(NewerThanJournal) ==>
      && i < |journal| && !WellRecorded(journal[i], rows, requireAll)
      && (forall j :: 0 <= j < i ==> WellRecorded(journal[j], rows, requireAll))
      && HistoryCheck(journal, rows, requireAll) ==
         Err(if RecordedTwice(journal[i], rows) || RecordedForeign(journal[i], rows) then Mismatch(journal[i].tag)
             else MissingBehindHead(journal[i].tag))
  {
    LatestIsMaximum(rows);
    i := 0;
    if Latest(rows) <= journal[|journal| - 1].when {
      i := CheckFails(journal, 0, rows, requireAll);
      forall j | 0 <= j <= i
        ensures EntryCheck(journal[j], rows, requireAll).Ok? <==> WellRecorded(journal[j], rows, requireAll)
      {
        EntryVerdict(journal[j], rows, requireAll);
      }
      EntryVerdict(journal[i], rows, requireAll);
    }
  }

  /** Some applied migration was edited since: a row holds a digest that is neither its entry's nor the legacy one. */
  ghost predicate Edited(journal: seq<Entry>, rows: seq<Row>) {
    exists i :: 0 <= i < |journal| && RecordedForeign(journal[i], rows)
  }

  lemma EditedIsRefused(journal: seq<Entry>, rows: seq<Row>)
    requires ValidJournal(journal) && Edited(journal, rows)
    ensures HistoryCheck(journal, rows, false).Err?
  {
    PassesIff(journal, rows, false);
    var i :| 0 <= i < |journal| && RecordedForeign(journal[i], rows);
    assert !WellRecorded(journal[i], rows, false);
  }

  // ---------------------------------------------------------------- what a transaction applies

  /** The database: its recorded rows, the serial the next row gets, and the batch of journal entries
      each committed migration transaction ran. */
  datatype Db = Db(rows: seq<Row>, nextId: nat, commits: seq<seq<Entry>>)

  /** The newest timestamp, as both the runner's and the migrator's ordered queries see it. */
  function Newest(rows: seq<Row>): Option<int> {
    if rows == [] then None
    else
      var rest, at := Newest(rows[..|rows| - 1]), rows[|rows| - 1].createdAt;
      if rest.None? || at > rest.value then Some(at) else rest
  }

  function NewerThan(listed: seq<Entry>, at: int): seq<Entry> {
    if listed == [] then []
    else (if listed[0].when > at then [listed[0]] else []) + NewerThan(listed[1..], at)
  }

  function NewRows(entries: seq<Entry>, nextId: nat): seq<Row> {
    seq(|entries|, k requires 0 <= k < |entries| => Row(nextId + k, entries[k].digest, entries[k].when))
  }

  function Recorded(db: Db, entries: seq<Entry>): Db {
    db.(rows := db.rows + NewRows(entries, db.nextId), nextId := db.nextId + |entries|)
  }

  /** One migrator transaction: every listed entry newer than the newest row, in order. */
  function Todo(listed: seq<Entry>, rows: seq<Row>): seq<Entry> {
    if Newest(rows).None? then listed else NewerThan(listed, Newest(rows).value)
  }

  function Migrated(db: Db, listed: seq<Entry>): Db {
    var todo := Todo(listed, db.rows);
    Recorded(db, todo).(commits := db.commits + [todo])
  }

  function BoundaryFrom(journal: seq<Entry>, i: nat): (at: Option<nat>)
    requires i <= |journal|
    ensures at.Some? ==> i <= at.value < |journal| && journal[at.value].tag == ENUM_BOUNDARY
    ensures at.None? ==> forall k :: i <= k < |journal| ==> journal[k].tag != ENUM_BOUNDARY
    decreases |journal| - i
  {
    if i == |journal| then None
    else if journal[i].tag == ENUM_BOUNDARY then Some(i)
    else BoundaryFrom(journal, i + 1)
  }

  function Boundary(journal: seq<Entry>): Option<nat> {
    BoundaryFrom(journal, 0)
  }

  /** The pending entries up to and including the enum boundary, which must commit on their own. */
  function ThroughEnum(journal: seq<Entry>, before: seq<Row>): seq<Entry>
  {
    if Boundary(journal).None? then []
    else
      var lastApplied := if Newest(before).None? then 0 else Newest(before).value;
      NewerThan(journal[..Boundary(journal).value + 1], lastApplied)
  }

  lemma {:induction false} NewestIsMaximum(rows: seq<Row>)
    ensures Newest(rows).None? <==> rows == []
    ensures forall k :: 0 <= k < |rows| ==> rows[k].createdAt <= Newest(rows).value
    ensures Newest(rows).Some? ==> exists k :: 0 <= k < |rows| && rows[k].createdAt == Newest(rows).value
  {
    if |rows| > 1 { NewestIsMaximum(rows[..|rows| - 1]); }
  }

  lemma {:induction false} NewerIsSuffix(listed: seq<Entry>, at: int, n: nat)
    requires n <= |listed|
    requires forall i :: 0 <= i < n ==> listed[i].when <= at
    requires forall i :: n <= i < |listed| ==> listed[i].when > at
    ensures NewerThan(listed, at) == listed[n..]
    decreases |listed|
  {
    if listed != [] {
      NewerIsSuffix(listed[1..], at, if n == 0 then 0 else n - 1);
      if n == 0 { assert [listed[0]] + listed[1..] == listed; }
    }
  }

  /** The newest row stands between the recorded entries and the pending ones. */
  lemma NewestDivides(journal: seq<Entry>, rows: seq<Row>, n: nat)
    requires ValidJournal(journal) && AppliedPrefix(journal, rows, n)
    ensures rows == [] ==> n == 0
    ensures var at := if Newest(rows).None? then 0 else Newest(rows).value;
      && (forall i :: 0 <= i < n ==> journal[i].when <= at)
      && (forall i :: n <= i < |journal| ==> journal[i].when > at)
  {
    NewestIsMaximum(rows);
    if n > 0 {
      AtFinds(rows, journal[n - 1].when);
      assert RecordedOnce(journal[n - 1], rows);
      assert At(rows, journal[n - 1].when)[0] in rows;
    }
  }

  /** On an accepted history the pending part of any leading stretch of the journal is its tail. */
  lemma TodoIsTail(journal: seq<Entry>, rows: seq<Row>, n: nat, m: nat)
    requires ValidJournal(journal) && AppliedPrefix(journal, rows, n) && m <= |journal|
    ensures Todo(journal[..m], rows) == if n <= m then journal[n..m] else []
    ensures NewerThan(journal[..m], if Newest(rows).None? then 0 else Newest(rows).value)
            == if n <= m then journal[n..m] else []
  {
    var cut := if n <= m then n else m;
    NewestDivides(journal, rows, n);
    NewestIsMaximum(rows);
    var at := if Newest(rows).None? then 0 else Newest(rows).value;
    NewerIsSuffix(journal[..m], at, cut);
    assert journal[..m][cut..] == journal[cut..m];
  }

  lemma {:induction false} AtAppend(rows: seq<Row>, row: Row, when: int)
    ensures At(rows + [row], when) == At(rows, when) + (if row.createdAt == when then [row] else [])
  {
    if rows != [] {
      AtAppend(rows[1..], row, when);
      assert (rows + [row])[1..] == rows[1..] + [row];
    } else {
      assert (rows + [row])[1..] == [];
    }
  }

  lemma NewRowsSplit(a: seq<Entry>, b: seq<Entry>, id: nat)
    ensures NewRows(a + b, id) == NewRows(a, id) + NewRows(b, id + |a|)
  {}

  lemma AppendAssociates(a: seq<Row>, b: seq<Row>, c: seq<Row>)
    ensures a + b + c == a + (b + c)
  {}

  lemma LastRowApart(journal: seq<Entry>, rows: seq<Row>, id: nat, n: nat, m: nat)
    requires n < m <= |journal|
    ensures rows + NewRows(journal[n..m], id)
         == rows + NewRows(journal[n..m - 1], id)
            + [Row(id + (m - 1 - n), journal[m - 1].digest, journal[m - 1].when)]
  {
    var last := [journal[m - 1]];
    NewRowsSplit(journal[n..m - 1], last, id);
    assert journal[n..m - 1] + last == journal[n..m];
    AppendAssociates(rows, NewRows(journal[n..m - 1], id), NewRows(last, id + (m - 1 - n)));
  }

  lemma RecordingOneExtends(journal: seq<Entry>, rows: seq<Row>, row: Row, n: nat)
    requires ValidJournal(journal) && AppliedPrefix(journal, rows, n) && n < |journal|
    requires row.hash == journal[n].digest && row.createdAt == journal[n].when
    ensures AppliedPrefix(journal, rows + [row], n + 1)
  {
    forall i | 0 <= i < |journal|
      ensures if i <= n then RecordedOnce(journal[i], rows + [row]) else NotRecorded(journal[i], rows + [row])
    {
      assert i < n ==> RecordedOnce(journal[i], rows);
      assert i >= n ==> NotRecorded(journal[i], rows);
      AtAppend(rows, row, journal[i].when);
      SameTime(journal, i, n);
    }
    RowsStayOlder(journal, rows, row, n);
  }

  lemma RowsStayOlder(journal: seq<Entry>, rows: seq<Row>, row: Row, n: nat)
    requires ValidJournal(journal) && n < |journal| && row.createdAt == journal[n].when
    requires forall k :: 0 <= k < |rows| ==> rows[k].createdAt < journal[n].when
    ensures forall k :: 0 <= k < |rows + [row]| ==>
      && (rows + [row])[k].createdAt <= journal[|journal| - 1].when
      && (n + 1 < |journal| ==> (rows + [row])[k].createdAt < journal[n + 1].when)
  {
    assert journal[n].when <= journal[|journal| - 1].when;
    assert n + 1 < |journal| ==> journal[n].when < journal[n + 1].when;
  }

  lemma SameTime(journal: seq<Entry>, i: nat, j: nat)
    requires ValidJournal(journal) && i < |journal| && j < |journal|
    ensures journal[i].when == journal[j].when <==> i == j
  {}

  ghost predicate RecordedTo(journal: seq<Entry>, rows: seq<Row>, id: nat, n: nat, m: nat) {
    n <= m <= |journal| && AppliedPrefix(journal, rows + NewRows(journal[n..m], id), m)
  }

  lemma RecordedNext(journal: seq<Entry>, rows: seq<Row>, id: nat, n: nat, m: nat)
    requires ValidJournal(journal) && RecordedTo(journal, rows, id, n, m) && m < |journal|
    ensures RecordedTo(journal, rows, id, n, m + 1)
  {
    var row := Row(id + (m - n), journal[m].digest, journal[m].when);
    LastRowApart(journal, rows, id, n, m + 1);
    RecordingOneExtends(journal, rows + NewRows(journal[n..m], id), row, m);
  }

  lemma {:induction false} RecordedReaches(journal: seq<Entry>, rows: seq<Row>, id: nat, n: nat, m: nat)
    requires ValidJournal(journal) && RecordedTo(journal, rows, id, n, n) && n <= m <= |journal|
    ensures RecordedTo(journal, rows, id, n, m)
    decreases m
  {
    if n < m {
      RecordedReaches(journal, rows, id, n, m - 1);
      RecordedNext(journal, rows, id, n, m - 1);
    }
  }

  /** Recording the next stretch of the journal extends the recorded prefix by exactly it. */
  lemma RecordingExtends(journal: seq<Entry>, rows: seq<Row>, id: nat, n: nat, m: nat)
    requires ValidJournal(journal) && AppliedPrefix(journal, rows, n) && n <= m <= |journal|
    ensures AppliedPrefix(journal, rows + NewRows(journal[n..m], id), m)
  {
    assert rows + NewRows(journal[n..n], id) == rows;
    RecordedReaches(journal, rows, id, n, m);
  }

  /** The migrator, given a leading stretch of the journal or the pending part of one, commits exactly
      the entries of it that are not recorded yet. */
  lemma MigratingAppends(journal: seq<Entry>, db: Db, n: nat, m: nat)
    requires ValidJournal(journal) && AppliedPrefix(journal, db.rows, n) && n <= m <= |journal|
    ensures Migrated(db, journal[..m]) == Recorded(db, journal[n..m]).(commits := db.commits + [journal[n..m]])
    ensures Migrated(db, journal[n..m]) == Migrated(db, journal[..m])
    ensures AppliedPrefix(journal, Migrated(db, journal[..m]).rows, m)
  {
    TodoIsTail(journal, db.rows, n, m);
    StageTodo(journal, db.rows, n, m);
    RecordingExtends(journal, db.rows, db.nextId, n, m);
  }

  /** The migrator, given only the pending first group, runs all of it. */
  lemma StageTodo(journal: seq<Entry>, rows: seq<Row>, n: nat, m: nat)
    requires ValidJournal(journal) && AppliedPrefix(journal, rows, n) && n <= m <= |journal|
    ensures Todo(journal[n..m], rows) == journal[n..m]
  {
    NewestIsMaximum(rows);
    if rows != [] {
      NewerIsSuffix(journal[n..m], Newest(rows).value, 0);
    }
  }

  /** One run without the stage, and one with it. */
  function Direct(journal: seq<Entry>, db: Db): Db {
    Migrated(db, journal)
  }

  function Staged(journal: seq<Entry>, db: Db): Db
  {
    var first := ThroughEnum(journal, db.rows);
    Migrated(if first == [] then db else Migrated(db, first), journal)
  }

  lemma TwoBatchesAreOne(db: Db, a: seq<Entry>, b: seq<Entry>, commits: seq<seq<Entry>>)
    ensures var twice := Recorded(Recorded(db, a).(commits := commits), b);
      twice.rows == Recorded(db, a + b).rows && twice.nextId == Recorded(db, a + b).nextId
  {
    NewRowsSplit(a, b, db.nextId);
    AppendAssociates(db.rows, NewRows(a, db.nextId), NewRows(b, db.nextId + |a|));
  }

  /** With entries still pending below the boundary, the run is two transactions that meet there. */
  lemma StagedInTwo(journal: seq<Entry>, db: Db, n: nat)
    requires ValidJournal(journal) && AppliedPrefix(journal, db.rows, n)
    requires Boundary(journal).Some? && n <= Boundary(journal).value
    ensures var m := Boundary(journal).value + 1;
      && ThroughEnum(journal, db.rows) == journal[n..m]
      && Staged(journal, db) == Migrated(Migrated(db, journal[n..m]), journal)
      && Migrated(db, journal[n..m]) == Recorded(db, journal[n..m]).(commits := db.commits + [journal[n..m]])
      && AppliedPrefix(journal, Migrated(db, journal[n..m]).rows, m)
  {
    var m := Boundary(journal).value + 1;
    TodoIsTail(journal, db.rows, n, m);
    MigratingAppends(journal, db, n, m);
  }

  lemma StagedInOne(journal: seq<Entry>, db: Db, n: nat)
    requires ValidJournal(journal) && AppliedPrefix(journal, db.rows, n)
    requires Boundary(journal).Some? ==> Boundary(journal).value < n
    ensures ThroughEnum(journal, db.rows) == [] && Staged(journal, db) == Direct(journal, db)
  {
    if Boundary(journal).Some? {
      var m := Boundary(journal).value + 1;
      TodoIsTail(journal, db.rows, n, m);
      assert m == n ==> journal[n..m] == [];
    }
  }

  lemma MigratingAll(journal: seq<Entry>, db: Db, n: nat)
    requires ValidJournal(journal) && AppliedPrefix(journal, db.rows, n)
    ensures Migrated(db, journal) == Recorded(db, journal[n..]).(commits := db.commits + [journal[n..]])
    ensures AppliedPrefix(journal, Migrated(db, journal).rows, |journal|)
  {
    MigratingAppends(journal, db, n, |journal|);
    assert journal[..|journal|] == journal && journal[n..|journal|] == journal[n..];
  }

  /** Staging changes nothing but the transaction boundaries: the same rows, with the same serials. */
  lemma StagedEqualsDirect(journal: seq<Entry>, db: Db)
    requires ValidJournal(journal) && HistoryCheck(journal, db.rows, false).Ok?
    ensures Staged(journal, db).rows == Direct(journal, db).rows
    ensures Staged(journal, db).nextId == Direct(journal, db).nextId
  {
    AcceptedIff(journal, db.rows);
    var n := Applied(journal, db.rows);
    if Boundary(journal).Some? && n <= Boundary(journal).value {
      StagedInTwo(journal, db, n);
      TwoStageRows(journal, db, n, Boundary(journal).value + 1);
    } else {
      StagedInOne(journal, db, n);
    }
  }

  lemma TwoStageRows(journal: seq<Entry>, db: Db, n: nat, m: nat)
    requires ValidJournal(journal) && AppliedPrefix(journal, db.rows, n) && n <= m <= |journal|
    ensures Migrated(Migrated(db, journal[n..m]), journal).rows == Migrated(db, journal).rows
    ensures Migrated(Migrated(db, journal[n..m]), journal).nextId == Migrated(db, journal).nextId
  {
    var mid := Migrated(db, journal[n..m]);
    MigratingAppends(journal, db, n, m);
    MigratingAll(journal, db, n);
    MigratingAll(journal, mid, m);
    StretchesMeet(journal, db, mid, n, m);
  }

  lemma StretchesMeet(journal: seq<Entry>, db: Db, mid: Db, n: nat, m: nat)
    requires n <= m <= |journal| && mid == Recorded(db, journal[n..m]).(commits := mid.commits)
    ensures Recorded(mid, journal[m..]).rows == Recorded(db, journal[n..]).rows
    ensures Recorded(mid, journal[m..]).nextId == Recorded(db, journal[n..]).nextId
  {
    TwoBatchesAreOne(db, journal[n..m], journal[m..], mid.commits);
    assert journal[n..m] + journal[m..] == journal[n..];
  }

  // ---------------------------------------------------------------- concurrent runners

  /** Where a runner process stands; `before` is the history it read under the lock. */
  datatype Runner =
    | Waiting
    | Locked
    | Verified(before: seq<Row>)
    | StageDone(before: seq<Row>)
    | AllDone(before: seq<Row>)
    | Succeeded(applied: seq<string>)
    | Rejected
    | Dead

  /** What happens to a runner's next action: a failing statement rolls its transaction back but still
      consumes serials, and a process may die before or just after its transaction commits. */
  datatype Fate = Proceeds | SqlFails(serials: nat) | Dies | CommitsThenDies

  datatype Cluster = Cluster(db: Db, lock: Option<nat>, runners: seq<Runner>)

  datatype Action = Action(runner: nat, fate: Fate)

  predicate InCriticalSection(r: Runner) {
    r.Locked? || r.Verified? || r.StageDone? || r.AllDone?
  }

  /** The connection closes: the session lock goes with it. */
  function Ended(c: Cluster, r: nat, end: Runner): Cluster
    requires r < |c.runners|
  {
    c.(runners := c.runners[r := end], lock := if c.lock == Some(r) then None else c.lock)
  }

  function Transacted(c: Cluster, r: nat, listed: seq<Entry>, next: Runner, fate: Fate): Cluster
    requires r < |c.runners|
  {
    match fate
    case Proceeds => c.(db := Migrated(c.db, listed), runners := c.runners[r := next])
    case SqlFails(serials) => Ended(c.(db := c.db.(nextId := c.db.nextId + serials)), r, Rejected)
    case Dies => Ended(c, r, Dead)
    case CommitsThenDies => Ended(c.(db := Migrated(c.db, listed)), r, Dead)
  }

  function TagAt(journal: seq<Entry>, when: int): Option<string> {
    if journal == [] then None
    else if journal[0].when == when then Some(journal[0].tag)
    else TagAt(journal[1..], when)
  }

  /** The tags of the rows that were not there before; `None` if one of them is not in the journal. */
  function Reported(journal: seq<Entry>, known: set<nat>, after: seq<Row>): Option<seq<string>> {
    if after == [] then Some([])
    else
      var rest := Reported(journal, known, after[1..]);
      if after[0].id in known then rest
      else
        var tag := TagAt(journal, after[0].createdAt);
        if tag.None? || rest.None? then None else Some([tag.value] + rest.value)
  }

  function Ids(rows: seq<Row>): set<nat> {
    set k | 0 <= k < |rows| :: rows[k].id
  }

  predicate Enabled(c: Cluster, a: Action) {
    && a.runner < |c.runners|
    && (c.runners[a.runner].Waiting? || InCriticalSection(c.runners[a.runner]))
    && (c.runners[a.runner].Waiting? && a.fate.Proceeds? ==> c.lock.None?)
  }

  function Act(journal: seq<Entry>, c: Cluster, a: Action): Cluster
    requires journal != [] && Enabled(c, a)
  {
    var r, runner := a.runner, c.runners[a.runner];
    if runner.StageDone? then Transacted(c, r, journal, AllDone(runner.before), a.fate)
    else if runner.Verified? && ThroughEnum(journal, runner.before) != [] then
      Transacted(c, r, ThroughEnum(journal, runner.before), StageDone(runner.before), a.fate)
    else if !a.fate.Proceeds? then Ended(c, r, Dead)
    else if runner.Verified? then c.(runners := c.runners[r := StageDone(runner.before)])
    else if runner.Waiting? then c.(lock := Some(r), runners := c.runners[r := Locked])
    else if runner.Locked? then
      if HistoryCheck(journal, c.db.rows, false).Ok?
      then c.(runners := c.runners[r := Verified(c.db.rows)]) else Ended(c, r, Rejected)
    else
      var report := Reported(journal, Ids(runner.before), c.db.rows);
      if HistoryCheck(journal, c.db.rows, true).Ok? && report.Some?
      then Ended(c, r, Succeeded(report.value)) else Ended(c, r, Rejected)
  }

  ghost predicate EnabledRun(journal: seq<Entry>, c: Cluster, actions: seq<Action>)
    requires journal != []
    decreases |actions|
  {
    actions == [] || (Enabled(c, actions[0]) && EnabledRun(journal, Act(journal, c, actions[0]), actions[1..]))
  }

  function Run(journal: seq<Entry>, c: Cluster, actions: seq<Action>): Cluster
    requires journal != [] && EnabledRun(journal, c, actions)
    decreases |actions|
  {
    if actions == [] then c else Run(journal, Act(journal, c, actions[0]), actions[1..])
  }

  /** A run goes on with one more action exactly if that is enabled where the run has come to. */
  lemma {:induction false} RunGrows(journal: seq<Entry>, c: Cluster, actions: seq<Action>, a: Action)
    requires journal != []
    ensures EnabledRun(journal, c, []) && Run(journal, c, []) == c
    ensures EnabledRun(journal, c, actions + [a]) <==>
            EnabledRun(journal, c, actions) && Enabled(Run(journal, c, actions), a)
    ensures EnabledRun(journal, c, actions + [a]) ==>
            Run(journal, c, actions + [a]) == Act(journal, Run(journal, c, actions), a)
    decreases |actions|
  {
    if actions == [] {
      assert [a][1..] == [] && actions + [a] == [a];
    } else {
      assert (actions + [a])[0] == actions[0] && (actions + [a])[1..] == actions[1..] + [a];
      if Enabled(c, actions[0]) {
        RunGrows(journal, Act(journal, c, actions[0]), actions[1..], a);
      }
    }
  }

  // ---------------------------------------------------------------- what every interleaving keeps

  function Flat(batches: seq<seq<Entry>>): seq<Entry> {
    if batches == [] then [] else Flat(batches[..|batches| - 1]) + batches[|batches| - 1]
  }

  function Tags(entries: seq<Entry>): seq<string> {
    seq(|entries|, k requires 0 <= k < |entries| => entries[k].tag)
  }

  ghost predicate FreshIds(db: Db) {
    && (forall k :: 0 <= k < |db.rows| ==> db.rows[k].id < db.nextId)
    && (forall j, k :: 0 <= j < k < |db.rows| ==> db.rows[j].id != db.rows[k].id)
  }

  /** No transaction holds both an entry up to the boundary and a later one. */
  ghost predicate SplitAtBoundary(journal: seq<Entry>, batch: seq<Entry>) {
    Boundary(journal).Some? ==>
      var at := journal[Boundary(journal).value].when;
      forall i, j :: 0 <= i < |batch| && 0 <= j < |batch| ==> !(batch[i].when <= at < batch[j].when)
  }

  /** The transactions so far together hold exactly the entries from `n0` up to `n`, once each and in
      journal order, none of them across the boundary. */
  ghost predicate CommittedExactly(journal: seq<Entry>, commits: seq<seq<Entry>>, n0: nat, n: nat) {
    && n0 <= n <= |journal|
    && Flat(commits) == journal[n0..n]
    && forall k :: 0 <= k < |commits| ==> SplitAtBoundary(journal, commits[k])
  }

  /** The database after any interleaving: an accepted history that extends the first one. */
  ghost predicate Consistent(journal: seq<Entry>, rows0: seq<Row>, db: Db) {
    && AppliedPrefix(journal, db.rows, Applied(journal, db.rows))
    && rows0 <= db.rows
    && FreshIds(db)
    && CommittedExactly(journal, db.commits, Applied(journal, rows0), Applied(journal, db.rows))
  }

  ghost predicate AnySucceeded(runners: seq<Runner>) {
    exists r :: 0 <= r < |runners| && runners[r].Succeeded?
  }

  /** The rows added since `before` are the journal's next entries; if any was pending, no runner has
      succeeded yet. */
  ghost predicate Knows(journal: seq<Entry>, rows: seq<Row>, runners: seq<Runner>, before: seq<Row>) {
    var n := Applied(journal, before);
    && before <= rows
    && n + |rows| - |before| == Applied(journal, rows)
    && (forall k :: |before| <= k < |rows| ==>
          n + k - |before| < |journal| && rows[k].createdAt == journal[n + k - |before|].when)
    && (AnySucceeded(runners) ==> n == |journal|)
  }

  ghost predicate RunnerInv(journal: seq<Entry>, rows: seq<Row>, runners: seq<Runner>, runner: Runner) {
    var n := Applied(journal, rows);
    match runner
    case Verified(before) => before == rows
    case StageDone(before) =>
      Knows(journal, rows, runners, before) && (Boundary(journal).Some? ==> Boundary(journal).value < n)
    case AllDone(before) => Knows(journal, rows, runners, before) && n == |journal|
    case Succeeded(applied) => n == |journal|
    case _ => true
  }

  ghost predicate Exclusive(lock: Option<nat>, runners: seq<Runner>) {
    forall r :: 0 <= r < |runners| ==> (InCriticalSection(runners[r]) <==> lock == Some(r))
  }

  /** Over all successful runs, only one has anything to report. */
  ghost predicate ReportedOnce(runners: seq<Runner>) {
    forall r, s :: 0 <= r < s < |runners| && runners[r].Succeeded? && runners[s].Succeeded? ==>
      runners[r].applied == [] || runners[s].applied == []
  }

  ghost predicate Inv(journal: seq<Entry>, rows0: seq<Row>, c: Cluster) {
    && Consistent(journal, rows0, c.db)
    && Exclusive(c.lock, c.runners)
    && ReportedOnce(c.runners)
    && forall r :: 0 <= r < |c.runners| ==> RunnerInv(journal, c.db.rows, c.runners, c.runners[r])
  }

  // ---------------------------------------------------------------- proofs

  lemma FlatSnoc(batches: seq<seq<Entry>>, batch: seq<Entry>)
    ensures Flat(batches + [batch]) == Flat(batches) + batch
  {
    assert (batches + [batch])[..|batches|] == batches;
  }

  lemma RecordingIsFresh(db: Db, entries: seq<Entry>)
    requires FreshIds(db)
    ensures FreshIds(Recorded(db, entries))
  {}

  lemma CommitSplits(journal: seq<Entry>, commits: seq<seq<Entry>>, n0: nat, n: nat, m: nat)
    requires ValidJournal(journal) && CommittedExactly(journal, commits, n0, n) && n <= m <= |journal|
    requires Boundary(journal).Some? ==> m <= Boundary(journal).value + 1 || Boundary(journal).value < n
    ensures CommittedExactly(journal, commits + [journal[n..m]], n0, m)
  {
    FlatSnoc(commits, journal[n..m]);
    StretchSplits(journal, n, m);
    StretchesJoin(journal, n0, n, m);
  }

  lemma StretchesJoin(journal: seq<Entry>, a: nat, b: nat, c: nat)
    requires a <= b <= c <= |journal|
    ensures journal[a..b] + journal[b..c] == journal[a..c]
  {}

  /** A transaction over the next stretch of the journal keeps the database consistent, as long as the
      stretch lies on one side of the boundary. */
  lemma CommitKeeps(journal: seq<Entry>, rows0: seq<Row>, db: Db, n: nat, m: nat)
    requires ValidJournal(journal) && Consistent(journal, rows0, db)
    requires n == Applied(journal, db.rows) && n <= m <= |journal|
    requires Boundary(journal).Some? ==> m <= Boundary(journal).value + 1 || Boundary(journal).value < n
    ensures var db' := Recorded(db, journal[n..m]).(commits := db.commits + [journal[n..m]]);
      Consistent(journal, rows0, db') && Applied(journal, db'.rows) == m
  {
    RecordingExtends(journal, db.rows, db.nextId, n, m);
    PrefixIsApplied(journal, db.rows + NewRows(journal[n..m], db.nextId), m);
    RecordingIsFresh(db, journal[n..m]);
    CommitSplits(journal, db.commits, Applied(journal, rows0), n, m);
  }

  /** What a runner knows about its own earlier transaction still holds after its next one. */
  lemma CommitIsKnown(journal: seq<Entry>, db: Db, runners: seq<Runner>, before: seq<Row>, n: nat, m: nat)
    requires ValidJournal(journal) && n == Applied(journal, db.rows) && n <= m <= |journal|
    requires Knows(journal, db.rows, runners, before)
    requires Applied(journal, Recorded(db, journal[n..m]).rows) == m
    ensures Knows(journal, Recorded(db, journal[n..m]).rows, runners, before)
  {
    var rows' := Recorded(db, journal[n..m]).rows;
    var nb := Applied(journal, before);
    var added := NewRows(journal[n..m], db.nextId);
    assert rows' == db.rows + added;
    forall k | |before| <= k < |rows'|
      ensures nb + k - |before| < |journal| && rows'[k].createdAt == journal[nb + k - |before|].when
    {
      if k < |db.rows| { assert rows'[k] == db.rows[k]; }
      else { assert rows'[k] == added[k - |db.rows|]; }
    }
  }

  lemma StretchSplits(journal: seq<Entry>, n: nat, m: nat)
    requires ValidJournal(journal) && n <= m <= |journal|
    requires Boundary(journal).Some? ==> m <= Boundary(journal).value + 1 || Boundary(journal).value < n
    ensures SplitAtBoundary(journal, journal[n..m])
  {
    if Boundary(journal).Some? {
      var b := Boundary(journal).value;
      forall i | n <= i < m ensures i <= b ==> journal[i].when <= journal[b].when
                            ensures i > b ==> journal[i].when > journal[b].when {}
    }
  }

  lemma {:induction false} TagAtFinds(journal: seq<Entry>, i: nat)
    requires i < |journal| && forall j :: 0 <= j < i ==> journal[j].when < journal[i].when
    ensures TagAt(journal, journal[i].when) == Some(journal[i].tag)
  {
    if i > 0 { TagAtFinds(journal[1..], i - 1); }
  }

  lemma NewIsUnknown(before: seq<Row>, db: Db, k: nat)
    requires FreshIds(db) && before <= db.rows && |before| <= k < |db.rows|
    ensures db.rows[k].id !in Ids(before)
  {
    forall j | 0 <= j < |before| ensures before[j].id != db.rows[k].id {
      assert before[j] == db.rows[j];
    }
  }

  lemma OldIsKnown(before: seq<Row>, rows: seq<Row>, k: nat)
    requires before <= rows && k < |before|
    ensures rows[k].id in Ids(before)
  {
    assert before[k] == rows[k];
  }

  lemma TagsFrom(journal: seq<Entry>, i: nat)
    requires i < |journal|
    ensures Tags(journal[i..]) == [journal[i].tag] + Tags(journal[i + 1..])
  {}

  /** A finished runner reports exactly the entries that were pending when it read the history. */
  lemma {:induction false} ReportIs(journal: seq<Entry>, before: seq<Row>, db: Db, n: nat, k: nat)
    requires ValidJournal(journal) && FreshIds(db) && before <= db.rows && k <= |db.rows|
    requires n + |db.rows| - |before| == |journal|
    requires forall i :: |before| <= i < |db.rows| ==> db.rows[i].createdAt == journal[n + i - |before|].when
    ensures var from := if k < |before| then n else n + k - |before|;
      Reported(journal, Ids(before), db.rows[k..]) == Some(Tags(journal[from..]))
    decreases |db.rows| - k
  {
    if k == |db.rows| {
      assert db.rows[k..] == [] && Tags(journal[|journal|..]) == [];
    } else {
      ReportIs(journal, before, db, n, k + 1);
      assert db.rows[k..][1..] == db.rows[k + 1..] && db.rows[k..][0] == db.rows[k];
      if k < |before| {
        OldIsKnown(before, db.rows, k);
      } else {
        NewIsUnknown(before, db, k);
        TagAtFinds(journal, n + k - |before|);
        TagsFrom(journal, n + k - |before|);
      }
    }
  }

  /** What one runner's change of state leaves for the others. */
  lemma OthersKeep(journal: seq<Entry>, c: Cluster, c': Cluster, r: nat)
    requires Exclusive(c.lock, c.runners) && r < |c.runners|
    requires forall s :: 0 <= s < |c.runners| ==> RunnerInv(journal, c.db.rows, c.runners, c.runners[s])
    requires |c'.runners| == |c.runners| && c' == c'.(runners := c.runners[r := c'.runners[r]])
    requires c.lock == Some(r) || (c'.db.rows == c.db.rows && !c'.runners[r].Succeeded?)
    requires Applied(journal, c.db.rows) <= Applied(journal, c'.db.rows) <= |journal|
    ensures forall s :: 0 <= s < |c.runners| && s != r ==> RunnerInv(journal, c'.db.rows, c'.runners, c'.runners[s])
  {
    forall s | 0 <= s < |c.runners| && s != r
      ensures RunnerInv(journal, c'.db.rows, c'.runners, c'.runners[s])
    {
      assert RunnerInv(journal, c.db.rows, c.runners, c.runners[s]);
      assert InCriticalSection(c.runners[s]) ==> c.lock == Some(s);
      if AnySucceeded(c'.runners) && !c'.runners[r].Succeeded? {
        var t :| 0 <= t < |c'.runners| && c'.runners[t].Succeeded?;
        assert c.runners[t].Succeeded?;
      }
    }
  }

  lemma EndFrees(c: Cluster, r: nat, end: Runner)
    requires Exclusive(c.lock, c.runners) && r < |c.runners| && !InCriticalSection(end)
    ensures Exclusive(Ended(c, r, end).lock, Ended(c, r, end).runners)
  {
    var c' := Ended(c, r, end);
    forall s | 0 <= s < |c.runners| ensures InCriticalSection(c'.runners[s]) <==> c'.lock == Some(s) {
      assert InCriticalSection(c.runners[s]) <==> c.lock == Some(s);
    }
  }

  lemma EndKeeps(journal: seq<Entry>, rows0: seq<Row>, c: Cluster, r: nat, end: Runner, serials: nat)
    requires ValidJournal(journal) && Inv(journal, rows0, c) && r < |c.runners| && end in {Rejected, Dead}
    ensures Inv(journal, rows0, Ended(c.(db := c.db.(nextId := c.db.nextId + serials)), r, end))
  {
    var db' := c.db.(nextId := c.db.nextId + serials);
    var c' := Ended(c.(db := db'), r, end);
    EndFrees(c.(db := db'), r, end);
    OthersKeep(journal, c, c', r);
    assert Consistent(journal, rows0, db');
  }

  /** A holder's transaction over the journal up to `m` commits, and the holder moves on or dies. */
  lemma CommittedKeeps(journal: seq<Entry>, rows0: seq<Row>, c: Cluster, c': Cluster, r: nat, n: nat, m: nat)
    requires ValidJournal(journal) && Inv(journal, rows0, c) && r < |c.runners| && c.lock == Some(r)
    requires n == Applied(journal, c.db.rows) && n <= m <= |journal|
    requires Boundary(journal).Some? ==> m <= Boundary(journal).value + 1 || Boundary(journal).value < n
    requires c'.db == Recorded(c.db, journal[n..m]).(commits := c.db.commits + [journal[n..m]])
    requires |c'.runners| == |c.runners| && c'.runners == c.runners[r := c'.runners[r]]
    requires !c'.runners[r].Succeeded?
    requires c'.lock == if InCriticalSection(c'.runners[r]) then Some(r) else None
    requires RunnerInv(journal, c'.db.rows, c'.runners, c'.runners[r])
    ensures Inv(journal, rows0, c')
  {
    CommitKeeps(journal, rows0, c.db, n, m);
    OthersKeep(journal, c, c', r);
    assert forall s :: 0 <= s < |c.runners| && s != r ==> c'.runners[s] == c.runners[s];
  }

  lemma NobodyNewSucceeded(runners: seq<Runner>, r: nat, next: Runner)
    requires r < |runners| && !next.Succeeded?
    ensures AnySucceeded(runners[r := next]) ==> AnySucceeded(runners)
  {
    if AnySucceeded(runners[r := next]) {
      var t :| 0 <= t < |runners| && runners[r := next][t].Succeeded?;
      assert runners[t].Succeeded?;
    }
  }

  lemma ProceedingKeeps(journal: seq<Entry>, rows0: seq<Row>, c: Cluster, r: nat, next: Runner, n: nat, m: nat)
    requires ValidJournal(journal) && Inv(journal, rows0, c) && r < |c.runners| && c.lock == Some(r)
    requires n == Applied(journal, c.db.rows) && n <= m <= |journal|
    requires Boundary(journal).Some? ==> m <= Boundary(journal).value + 1 || Boundary(journal).value < n
    requires next.StageDone? || next.AllDone?
    requires Knows(journal, c.db.rows, c.runners, next.before)
    requires next.StageDone? ==> Boundary(journal).Some? && m == Boundary(journal).value + 1
    requires next.AllDone? ==> m == |journal|
    ensures Inv(journal, rows0, c.(runners := c.runners[r := next],
              db := Recorded(c.db, journal[n..m]).(commits := c.db.commits + [journal[n..m]])))
  {
    var c' := c.(runners := c.runners[r := next],
                 db := Recorded(c.db, journal[n..m]).(commits := c.db.commits + [journal[n..m]]));
    NobodyNewSucceeded(c.runners, r, next);
    CommitKeeps(journal, rows0, c.db, n, m);
    CommitIsKnown(journal, c.db, c.runners, next.before, n, m);
    CommittedKeeps(journal, rows0, c, c', r, n, m);
  }

  lemma TransactionKeeps(journal: seq<Entry>, rows0: seq<Row>, c: Cluster, r: nat, listed: seq<Entry>,
                         next: Runner, fate: Fate, n: nat, m: nat)
    requires ValidJournal(journal) && Inv(journal, rows0, c) && r < |c.runners| && c.lock == Some(r)
    requires n == Applied(journal, c.db.rows) && n <= m <= |journal|
    requires Boundary(journal).Some? ==> m <= Boundary(journal).value + 1 || Boundary(journal).value < n
    requires Migrated(c.db, listed) == Recorded(c.db, journal[n..m]).(commits := c.db.commits + [journal[n..m]])
    requires next.StageDone? || next.AllDone?
    requires Knows(journal, c.db.rows, c.runners, next.before)
    requires next.StageDone? ==> Boundary(journal).Some? && m == Boundary(journal).value + 1
    requires next.AllDone? ==> m == |journal|
    ensures Inv(journal, rows0, Transacted(c, r, listed, next, fate))
  {
    match fate
    case SqlFails(serials) => EndKeeps(journal, rows0, c, r, Rejected, serials);
    case Dies => EndKeeps(journal, rows0, c, r, Dead, 0);
    case CommitsThenDies => CommittedKeeps(journal, rows0, c, Transacted(c, r, listed, next, fate), r, n, m);
    case Proceeds => ProceedingKeeps(journal, rows0, c, r, next, n, m);
  }

  lemma MovesKeep(journal: seq<Entry>, rows0: seq<Row>, c: Cluster, r: nat, next: Runner)
    requires ValidJournal(journal) && Inv(journal, rows0, c) && r < |c.runners|
    requires c.lock == Some(r) || (c.lock == None && c.runners[r].Waiting?)
    requires InCriticalSection(next) && RunnerInv(journal, c.db.rows, c.runners, next)
    ensures Inv(journal, rows0, c.(lock := Some(r), runners := c.runners[r := next]))
  {
    var c' := c.(lock := Some(r), runners := c.runners[r := next]);
    NobodyNewSucceeded(c.runners, r, next);
    OthersKeep(journal, c, c', r);
  }

  lemma SuccessReport(journal: seq<Entry>, rows0: seq<Row>, c: Cluster, r: nat)
    requires ValidJournal(journal) && Inv(journal, rows0, c) && r < |c.runners| && c.runners[r].AllDone?
    ensures HistoryCheck(journal, c.db.rows, true).Ok?
    ensures Reported(journal, Ids(c.runners[r].before), c.db.rows)
         == Some(Tags(journal[Applied(journal, c.runners[r].before)..]))
  {
    var before := c.runners[r].before;
    assert RunnerInv(journal, c.db.rows, c.runners, c.runners[r]);
    CompleteIff(journal, c.db.rows);
    ReportIs(journal, before, c.db, Applied(journal, before), 0);
    assert c.db.rows[0..] == c.db.rows;
  }

  lemma SuccessKeeps(journal: seq<Entry>, rows0: seq<Row>, c: Cluster, r: nat, applied: seq<string>)
    requires ValidJournal(journal) && Inv(journal, rows0, c) && r < |c.runners|
    requires c.lock == Some(r) && c.runners[r].AllDone?
    requires AnySucceeded(c.runners) ==> applied == []
    ensures Inv(journal, rows0, Ended(c, r, Succeeded(applied)))
  {
    var c' := Ended(c, r, Succeeded(applied));
    assert RunnerInv(journal, c.db.rows, c.runners, c.runners[r]);
    OthersKeep(journal, c, c', r);
    assert forall s :: 0 <= s < |c.runners| && s != r ==> c'.runners[s] == c.runners[s];
  }

  lemma SuccessIsComplete(journal: seq<Entry>, rows0: seq<Row>, c: Cluster)
    requires Inv(journal, rows0, c) && AnySucceeded(c.runners)
    ensures Applied(journal, c.db.rows) == |journal| && AppliedPrefix(journal, c.db.rows, |journal|)
  {
    var r :| 0 <= r < |c.runners| && c.runners[r].Succeeded?;
    assert RunnerInv(journal, c.db.rows, c.runners, c.runners[r]);
  }

  /** A runner that has just checked the history knows it is current. */
  lemma VerifiedKnows(journal: seq<Entry>, rows0: seq<Row>, c: Cluster, r: nat)
    requires ValidJournal(journal) && Inv(journal, rows0, c) && r < |c.runners| && c.runners[r].Verified?
    ensures c.lock == Some(r) && c.runners[r].before == c.db.rows
    ensures Knows(journal, c.db.rows, c.runners, c.db.rows)
  {
    assert RunnerInv(journal, c.db.rows, c.runners, c.runners[r]);
    assert InCriticalSection(c.runners[r]);
    if AnySucceeded(c.runners) {
      SuccessIsComplete(journal, rows0, c);
    }
  }

  lemma StageActKeeps(journal: seq<Entry>, rows0: seq<Row>, c: Cluster, a: Action)
    requires ValidJournal(journal) && Inv(journal, rows0, c) && Enabled(c, a) && c.runners[a.runner].Verified?
    ensures Inv(journal, rows0, Act(journal, c, a))
  {
    var r, before := a.runner, c.runners[a.runner].before;
    var n := Applied(journal, c.db.rows);
    VerifiedKnows(journal, rows0, c, r);
    FirstGroup(journal, c.db.rows);
    if ThroughEnum(journal, before) != [] {
      var m := Boundary(journal).value + 1;
      MigratingAppends(journal, c.db, n, m);
      TransactionKeeps(journal, rows0, c, r, ThroughEnum(journal, before), StageDone(before), a.fate, n, m);
    } else if a.fate.Proceeds? {
      MovesKeep(journal, rows0, c, r, StageDone(before));
    } else {
      EndKeeps(journal, rows0, c, r, Dead, 0);
    }
  }

  lemma ActKeeps(journal: seq<Entry>, rows0: seq<Row>, c: Cluster, a: Action)
    requires ValidJournal(journal) && Inv(journal, rows0, c) && Enabled(c, a)
    ensures Inv(journal, rows0, Act(journal, c, a))
  {
    var r, runner := a.runner, c.runners[a.runner];
    var n := Applied(journal, c.db.rows);
    assert RunnerInv(journal, c.db.rows, c.runners, runner);
    if runner.StageDone? {
      assert journal[..|journal|] == journal;
      MigratingAll(journal, c.db, n);
      assert journal[n..|journal|] == journal[n..];
      TransactionKeeps(journal, rows0, c, r, journal, AllDone(runner.before), a.fate, n, |journal|);
    } else if runner.Verified? {
      StageActKeeps(journal, rows0, c, a);
    } else if !a.fate.Proceeds? {
      EndKeeps(journal, rows0, c, r, Dead, 0);
    } else if runner.Waiting? {
      MovesKeep(journal, rows0, c, r, Locked);
    } else if runner.Locked? {
      AcceptedIff(journal, c.db.rows);
      MovesKeep(journal, rows0, c, r, Verified(c.db.rows));
    } else {
      SuccessReport(journal, rows0, c, r);
      SuccessKeeps(journal, rows0, c, r, Tags(journal[Applied(journal, runner.before)..]));
    }
  }

  /** The first group is pending entries up to the boundary, and empty once the boundary is recorded. */
  lemma FirstGroup(journal: seq<Entry>, rows: seq<Row>)
    requires ValidJournal(journal) && AppliedPrefix(journal, rows, Applied(journal, rows))
    ensures var n := Applied(journal, rows);
      if Boundary(journal).Some? && n <= Boundary(journal).value
      then ThroughEnum(journal, rows) == journal[n..Boundary(journal).value + 1]
      else ThroughEnum(journal, rows) == []
  {
    if Boundary(journal).Some? {
      GroupIsTail(journal, rows, Applied(journal, rows), Boundary(journal).value + 1);
    }
  }

  lemma GroupIsTail(journal: seq<Entry>, rows: seq<Row>, n: nat, m: nat)
    requires ValidJournal(journal) && AppliedPrefix(journal, rows, n) && m <= |journal|
    ensures NewerThan(journal[..m], if Newest(rows).None? then 0 else Newest(rows).value)
            == if n < m then journal[n..m] else []
  {
    TodoIsTail(journal, rows, n, m);
    assert journal[m..m] == [];
  }

  lemma {:induction false} RunKeeps(journal: seq<Entry>, rows0: seq<Row>, c: Cluster, actions: seq<Action>)
    requires ValidJournal(journal) && Inv(journal, rows0, c) && EnabledRun(journal, c, actions)
    ensures Inv(journal, rows0, Run(journal, c, actions))
    decreases |actions|
  {
    if actions != [] {
      ActKeeps(journal, rows0, c, actions[0]);
      RunKeeps(journal, rows0, Act(journal, c, actions[0]), actions[1..]);
    }
  }

  /** A cluster at rest: a database no runner has touched yet, and any number of runners to come. */
  predicate AtRest(c: Cluster) {
    && c.lock.None? && c.db.commits == []
    && forall r :: 0 <= r < |c.runners| ==> c.runners[r].Waiting?
  }

  lemma RestHolds(journal: seq<Entry>, c: Cluster)
    requires ValidJournal(journal) && AtRest(c) && FreshIds(c.db) && HistoryCheck(journal, c.db.rows, false).Ok?
    ensures Inv(journal, c.db.rows, c)
  {
    AcceptedIsPrefix(journal, c.db.rows);
    assert journal[Applied(journal, c.db.rows)..Applied(journal, c.db.rows)] == [];
  }

  /** Over every interleaving of runners that wait, proceed, fail and die anywhere: the history stays a
      prefix of the journal that extends the first one, every entry since was committed exactly once, in
      journal order and never across the enum boundary, success means nothing is pending, and only one
      run reports anything. */
  lemma {:induction false} MigrationTheorem(journal: seq<Entry>, c: Cluster, actions: seq<Action>)
    requires ValidJournal(journal) && AtRest(c) && FreshIds(c.db)
    requires HistoryCheck(journal, c.db.rows, false).Ok? && EnabledRun(journal, c, actions)
    ensures var end := Run(journal, c, actions);
      && Consistent(journal, c.db.rows, end.db)
      && ReportedOnce(end.runners)
      && (AnySucceeded(end.runners) ==> AppliedPrefix(journal, end.db.rows, |journal|))
  {
    RestHolds(journal, c);
    RunKeeps(journal, c.db.rows, c, actions);
    var end := Run(journal, c, actions);
    if AnySucceeded(end.runners) {
      SuccessIsComplete(journal, c.db.rows, end);
    }
  }

  /** A runner whose statement fails, or that dies, is done and lets go of the lock. Its transaction is recorded only
      if it died after the commit; one that failed has used up serials. Without a transaction nothing is written. */
  lemma FailuresEnd(journal: seq<Entry>, c: Cluster, a: Action)
    requires journal != [] && Enabled(c, a) && !a.fate.Proceeds?
    ensures var after, runner := Act(journal, c, a), c.runners[a.runner];
      var migrating := runner.StageDone? || (runner.Verified? && ThroughEnum(journal, runner.before) != []);
      && after.runners == c.runners[a.runner := if migrating && a.fate.SqlFails? then Rejected else Dead]
      && after.lock == (if c.lock == Some(a.runner) then None else c.lock)
      && (migrating && a.fate.CommitsThenDies? ==>
            after.db == Migrated(c.db, if runner.StageDone? then journal else ThroughEnum(journal, runner.before)))
      && (!migrating || !a.fate.CommitsThenDies? ==>
            && after.db.rows == c.db.rows && after.db.commits == c.db.commits
            && after.db.nextId == c.db.nextId + if migrating && a.fate.SqlFails? then a.fate.serials else 0)
  {}

  /** A history the check refuses is never touched, and no run over it succeeds. */
  lemma {:induction false} RefusedHistoryIsUntouched(journal: seq<Entry>, c: Cluster, actions: seq<Action>)
    requires ValidJournal(journal) && HistoryCheck(journal, c.db.rows, false).Err?
    requires forall r :: 0 <= r < |c.runners| ==> c.runners[r] in {Waiting, Locked, Rejected, Dead}
    requires EnabledRun(journal, c, actions)
    ensures Run(journal, c, actions).db == c.db && !AnySucceeded(Run(journal, c, actions).runners)
    decreases |actions|
  {
    if actions != [] {
      RefusedHistoryIsUntouched(journal, Act(journal, c, actions[0]), actions[1..]);
    }
  }

  /** Up to `k` actions of one runner with nothing going wrong and nobody in between. */
  function Alone(journal: seq<Entry>, c: Cluster, r: nat, k: nat): Cluster
    requires journal != []
    decreases k
  {
    if k == 0 || !Enabled(c, Action(r, Proceeds)) then c
    else Alone(journal, Act(journal, c, Action(r, Proceeds)), r, k - 1)
  }

  /** A runner that takes the free lock and meets neither a failing statement nor its own death
      succeeds in five actions, and reports exactly the entries that were pending. */
  lemma UndisturbedRunSucceeds(journal: seq<Entry>, rows0: seq<Row>, c: Cluster, r: nat)
    requires ValidJournal(journal) && Inv(journal, rows0, c)
    requires r < |c.runners| && c.runners[r].Waiting? && c.lock.None?
    ensures var end := Alone(journal, c, r, 5);
      && end.lock.None? && |end.runners| == |c.runners|
      && end.runners[r] == Succeeded(Tags(journal[Applied(journal, c.db.rows)..]))
  {
    var c1 := Act(journal, c, Action(r, Proceeds));
    ActKeeps(journal, rows0, c, Action(r, Proceeds));
    assert Alone(journal, c, r, 5) == Alone(journal, c1, r, 4);
    HolderSucceeds(journal, rows0, c1, r);
  }

  lemma HolderSucceeds(journal: seq<Entry>, rows0: seq<Row>, c: Cluster, r: nat)
    requires ValidJournal(journal) && Inv(journal, rows0, c) && r < |c.runners| && c.runners[r].Locked?
    ensures var end := Alone(journal, c, r, 4);
      && end.lock.None? && |end.runners| == |c.runners|
      && end.runners[r] == Succeeded(Tags(journal[Applied(journal, c.db.rows)..]))
  {
    AcceptedIff(journal, c.db.rows);
    var c2 := Act(journal, c, Action(r, Proceeds));
    assert c2 == c.(runners := c.runners[r := Verified(c.db.rows)]);
    ActKeeps(journal, rows0, c, Action(r, Proceeds));
    VerifiedSucceeds(journal, rows0, c2, r);
  }

  lemma VerifiedSucceeds(journal: seq<Entry>, rows0: seq<Row>, c: Cluster, r: nat)
    requires ValidJournal(journal) && Inv(journal, rows0, c) && r < |c.runners| && c.runners[r].Verified?
    ensures var end := Alone(journal, c, r, 3);
      && end.lock.None? && |end.runners| == |c.runners|
      && end.runners[r] == Succeeded(Tags(journal[Applied(journal, c.runners[r].before)..]))
  {
    var c' := Act(journal, c, Action(r, Proceeds));
    assert c'.runners[r] == StageDone(c.runners[r].before);
    ActKeeps(journal, rows0, c, Action(r, Proceeds));
    StageDoneSucceeds(journal, rows0, c', r);
  }

  lemma StageDoneSucceeds(journal: seq<Entry>, rows0: seq<Row>, c: Cluster, r: nat)
    requires ValidJournal(journal) && Inv(journal, rows0, c) && r < |c.runners| && c.runners[r].StageDone?
    ensures var end := Alone(journal, c, r, 2);
      && end.lock.None? && |end.runners| == |c.runners|
      && end.runners[r] == Succeeded(Tags(journal[Applied(journal, c.runners[r].before)..]))
  {
    var c' := Act(journal, c, Action(r, Proceeds));
    assert c'.runners[r] == AllDone(c.runners[r].before);
    ActKeeps(journal, rows0, c, Action(r, Proceeds));
    SuccessReport(journal, rows0, c', r);
    assert Alone(journal, c, r, 2) == Alone(journal, c', r, 1) == Act(journal, c', Action(r, Proceeds));
  }

  lemma {:induction false} FlatReaches(batches: seq<seq<Entry>>, k: nat)
    requires k < |batches|
    ensures Flat(batches[..k]) + batches[k] <= Flat(batches)
    decreases |batches|
  {
    var last := |batches| - 1;
    if k < last {
      FlatReaches(batches[..last], k);
      assert batches[..last][..k] == batches[..k];
    }
  }

  lemma PrefixesAreStretches(a: seq<Entry>, b: seq<Entry>, journal: seq<Entry>, low: nat, high: nat)
    requires low <= high <= |journal| && a + b <= journal[low..high]
    ensures low + |a| + |b| <= high
    ensures a == journal[low..low + |a|] && b == journal[low + |a|..low + |a| + |b|]
  {
    var stretch := journal[low..high];
    assert forall i :: 0 <= i < |a| ==> a[i] == (a + b)[i] == stretch[i];
    assert forall i :: 0 <= i < |b| ==> b[i] == (a + b)[|a| + i] == stretch[|a| + i];
  }

  /** A transaction holds the stretch of the journal that follows on the ones before it. */
  lemma CommitIsStretch(journal: seq<Entry>, commits: seq<seq<Entry>>, n0: nat, n: nat, k: nat)
    requires n0 <= n <= |journal| && Flat(commits) == journal[n0..n] && k < |commits|
    ensures var p := n0 + |Flat(commits[..k])|;
      p + |commits[k]| <= n && Flat(commits[..k]) == journal[n0..p] && commits[k] == journal[p..p + |commits[k]|]
  {
    FlatReaches(commits, k);
    PrefixesAreStretches(Flat(commits[..k]), commits[k], journal, n0, n);
  }

  /** The boundary entry was committed by an earlier transaction than any later entry. */
  lemma BoundaryCommitsFirst(journal: seq<Entry>, commits: seq<seq<Entry>>, n0: nat, n: nat, k: nat, i: nat)
    requires ValidJournal(journal) && CommittedExactly(journal, commits, n0, n)
    requires Boundary(journal).Some? && n0 <= Boundary(journal).value < i < n
    requires k < |commits| && journal[i] in commits[k]
    ensures journal[Boundary(journal).value] in Flat(commits[..k])
  {
    var b, p := Boundary(journal).value, n0 + |Flat(commits[..k])|;
    CommitIsStretch(journal, commits, n0, n, k);
    assert SplitAtBoundary(journal, commits[k]);
    var at :| 0 <= at < |commits[k]| && commits[k][at] == journal[i];
    assert p + at == i;
    assert commits[k][0] == journal[p];
    assert p > b;
    assert journal[n0..p][b - n0] == journal[b];
  }

  // ---------------------------------------------------------------- one runner, as the code drives it

  datatype RunError = BadJournal | BadHistory | StatementFailed | UnknownRow

  lemma {:induction false} NewerThanSnoc(listed: seq<Entry>, entry: Entry, at: int)
    ensures NewerThan(listed + [entry], at) == NewerThan(listed, at) + (if entry.when > at then [entry] else [])
  {
    if listed == [] {
      assert ([] + [entry])[1..] == [];
    } else {
      assert (listed + [entry])[1..] == listed[1..] + [entry];
      NewerThanSnoc(listed[1..], entry, at);
    }
  }

  lemma RecordedSnoc(db: Db, todo: seq<Entry>, entry: Entry)
    ensures Recorded(db, todo + [entry]).rows
         == Recorded(db, todo).rows + [Row(db.nextId + |todo|, entry.digest, entry.when)]
  {
    NewRowsSplit(todo, [entry], db.nextId);
    AppendAssociates(db.rows, NewRows(todo, db.nextId), NewRows([entry], db.nextId + |todo|));
  }

  /** After both transactions the final check passes and the report names what was pending. */
  lemma CompletedRun(journal: seq<Entry>, db: Db, n: nat, rows: seq<Row>)
    requires ValidJournal(journal) && AppliedPrefix(journal, db.rows, n) && FreshIds(db)
    requires rows == Direct(journal, db).rows
    ensures HistoryCheck(journal, rows, true).Ok?
    ensures Reported(journal, Ids(db.rows), rows) == Some(Tags(journal[n..]))
  {
    MigratingAll(journal, db, n);
    CompleteIff(journal, rows);
    RecordingIsFresh(db, journal[n..]);
    PrefixLengthMatches(db, journal, n);
    ReportIs(journal, db.rows, Recorded(db, journal[n..]), n, 0);
    assert rows[0..] == rows;
  }

  lemma PrefixLengthMatches(db: Db, journal: seq<Entry>, n: nat)
    requires n <= |journal|
    ensures var rows := Recorded(db, journal[n..]).rows;
      && db.rows <= rows && n + |rows| - |db.rows| == |journal|
      && forall i :: |db.rows| <= i < |rows| ==> rows[i].createdAt == journal[n + i - |db.rows|].when
  {}

  /** The stage, once committed, leaves the rest of the run exactly what a direct run would write. */
  lemma StageLeavesRest(journal: seq<Entry>, db: Db, n: nat)
    requires ValidJournal(journal) && AppliedPrefix(journal, db.rows, n)
    requires Boundary(journal).Some? && n <= Boundary(journal).value
    ensures var mid := Migrated(db, ThroughEnum(journal, db.rows));
      && AppliedPrefix(journal, mid.rows, Boundary(journal).value + 1)
      && Migrated(mid, journal).rows == Direct(journal, db).rows
  {
    StagedInTwo(journal, db, n);
    TwoStageRows(journal, db, n, Boundary(journal).value + 1);
  }

  lemma Reread(raw: seq<Option<Entry>>, a: seq<Entry>, b: seq<Entry>)
    requires Reads(raw, a) && Reads(raw, b)
    ensures a == b
  {}

  /** What a run owes its caller, given which of its two transactions meets a failing statement. */
  ghost predicate Delivers(journal: seq<Entry>, db: Db, db': Db, stageFails: bool, restFails: bool,
                           r: Result<seq<string>, RunError>)
    requires journal != []
  {
    var n := Applied(journal, db.rows);
    var staged := Boundary(journal).Some? && n <= Boundary(journal).value;
    if HistoryCheck(journal, db.rows, false).Err? then
      r == Err(BadHistory) && db' == db
    else if staged && stageFails then
      r == Err(StatementFailed) && db'.rows == db.rows && db'.commits == db.commits
    else if restFails then
      var kept := if staged then Migrated(db, ThroughEnum(journal, db.rows)) else db;
      && r == Err(StatementFailed) && db'.rows == kept.rows && db'.commits == kept.commits
      && AppliedPrefix(journal, db'.rows, if staged then Boundary(journal).value + 1 else n)
    else
      r == Ok(Tags(journal[n..])) && db'.rows == Direct(journal, db).rows
  }

  lemma TodoNext(listed: seq<Entry>, i: nat, rows: seq<Row>)
    requires i < |listed|
    ensures var newest := Newest(rows);
      Todo(listed[..i + 1], rows) ==
      if newest.None? || listed[i].when > newest.value then Todo(listed[..i], rows) + [listed[i]]
      else Todo(listed[..i], rows)
  {
    assert listed[..i + 1] == listed[..i] + [listed[i]];
    if Newest(rows).Some? { NewerThanSnoc(listed[..i], listed[i], Newest(rows).value); }
  }

  class Database {
    var rows: seq<Row>
    var nextId: nat
    ghost var commits: seq<seq<Entry>>

    ghost function View(): Db
      reads this
    {
      Db(rows, nextId, commits)
    }

    constructor (rows: seq<Row>, nextId: nat)
      ensures View() == Db(rows, nextId, [])
    {
      this.rows, this.nextId, commits := rows, nextId, [];
    }

    /** The row of one applied entry, under the next serial. */
    method Record(entry: Entry, ghost before: Db, ghost todo: seq<Entry>)
      requires View() == Recorded(before, todo)
      modifies this`rows, this`nextId
      ensures View() == Recorded(before, todo + [entry])
    {
      RecordedSnoc(before, todo, entry);
      rows := rows + [Row(nextId, entry.digest, entry.when)];
      nextId := nextId + 1;
    }

    /** Every listed entry newer than the newest row, in order. */
    method Apply(listed: seq<Entry>)
      modifies this
      ensures View() == Migrated(old(View()), listed)
    {
      var newest := Newest(rows);
      ghost var before := View();
      ghost var todo: seq<Entry> := [];
      assert NewRows([], nextId) == [];
      for i := 0 to |listed|
        invariant todo == Todo(listed[..i], before.rows)
        invariant View() == Recorded(before, todo)
      {
        TodoNext(listed, i, before.rows);
        if newest.None? || listed[i].when > newest.value {
          Record(listed[i], before, todo);
          todo := todo + [listed[i]];
        }
      }
      assert listed[..|listed|] == listed;
      commits := commits + [todo];
    }

    /** One migrator transaction. A failing statement rolls it back and leaves used-up serials. */
    method Migrate(listed: seq<Entry>, fails: bool, serials: nat) returns (ok: bool)
      modifies this
      ensures ok <==> !fails
      ensures View() == if fails then old(View()).(nextId := old(nextId) + serials) else Migrated(old(View()), listed)
    {
      if fails {
        nextId := nextId + serials;
        return false;
      }
      Apply(listed);
      return true;
    }

    /** The part of a run after the journal is read: check, first group, rest, check, report. */
    method ApplyPending(journal: seq<Entry>, stageFails: bool, restFails: bool, serials: nat)
      returns (r: Result<seq<string>, RunError>)
      requires ValidJournal(journal) && FreshIds(View())
      modifies this
      ensures Delivers(journal, old(View()), View(), stageFails, restFails, r)
    {
      var before := rows;
      var check := VerifyHistory(journal, before, false);
      if check.Err? { return Err(BadHistory); }
      ghost var n, db := Applied(journal, rows), View();
      AcceptedIff(journal, rows);
      FirstGroup(journal, rows);
      var first := ThroughEnum(journal, before);
      if first != [] {
        StageLeavesRest(journal, db, n);
        var ok := Migrate(first, stageFails, serials);
        if !ok { return Err(StatementFailed); }
      }
      var ok := Migrate(journal, restFails, serials);
      if !ok { return Err(StatementFailed); }
      CompletedRun(journal, db, n, rows);
      var done := VerifyHistory(journal, rows, true);
      if done.Err? { return Err(BadHistory); }
      var report := Reported(journal, Ids(before), rows);
      if report.None? { return Err(UnknownRow); }
      return Ok(report.value);
    }

    /** A whole run under the lock. `stageFails` and `restFails` say whether a statement of the first
        group or of the rest fails; each failure uses up some serials. */
    method RunMigrations(raw: seq<Option<Entry>>, stageFails: bool, restFails: bool, serials: nat)
      returns (r: Result<seq<string>, RunError>)
      requires FreshIds(View())
      modifies this
      ensures (forall journal | Reads(raw, journal) :: !ValidJournal(journal)) ==>
                r == Err(BadJournal) && View() == old(View())
      ensures forall journal | Reads(raw, journal) && ValidJournal(journal) ::
                Delivers(journal, old(View()), View(), stageFails, restFails, r)
      ensures forall journal | Reads(raw, journal) && ValidJournal(journal) ::
                Edited(journal, old(rows)) ==> r == Err(BadHistory) && View() == old(View())
    {
      var read := ReadJournal(raw);
      if read.Err? { return Err(BadJournal); }
      forall j | Reads(raw, j) ensures j == read.value { Reread(raw, j, read.value); }
      if Edited(read.value, rows) { EditedIsRefused(read.value, rows); }
      r := ApplyPending(read.value, stageFails, restFails, serials);
    }
  }
}
