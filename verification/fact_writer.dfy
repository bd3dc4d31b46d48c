/** The writer of user-confirmed facts (core/application_fact_writer.py): immutable history
    first, then a backup of the projection, then the projection itself.

    A file created with `write_bytes_if_absent` is torn when the process dies while writing
    it; `write_bytes` replaces a file atomically.  JSON text and SHA-256 are parameters: the
    text round-trips and the digests are injective. */
module FactWriter {
  import opened Common

  /** The content a record is identified by; it leaves out the time of confirmation. */
  datatype Content = Content(
    subject: string, item: string, message: string, key: string, scope: string, sensitivity: string, value: string)

  datatype Record = Record(content: Content, at: string)

  /** One answer of the projection: written by this service, or by something else. */
  datatype Entry =
    | Projected(factId: string, at: string, scope: string, sensitivity: string, value: string)
    | Foreign(json: string)

  /** The projection document: its answers, and everything else in it. */
  datatype Document = Document(answers: map<string, Entry>, rest: string)

  datatype Crash = NoCrash | BeforeHistory | DuringHistory | BeforeBackup | DuringBackup | BeforeProjection | BeforeVerification

  /** How the surroundings of one write answer. */
  datatype Surroundings = Surroundings(
    vaultSubject: Option<string>, historyWritable: bool, backupWritable: bool, projectionWritable: bool,
    verifies: bool, crash: Crash)
  {
    predicate Healthy() {
      historyWritable && backupWritable && projectionWritable && verifies && crash == NoCrash
    }
  }

  datatype Command = Command(valid: bool, content: Content, at: string)

  datatype Result = Created | Unchanged | Failed | Died

  datatype Codec = Codec(
    parse: string -> Option<Document>, render: Document -> string, digest: string -> string, recordId: Content -> string)
  {
    ghost predicate Faithful() {
      && (forall d :: parse(render(d)) == Some(d))
      && (forall a, b :: digest(a) == digest(b) ==> a == b)
      && (forall a, b :: recordId(a) == recordId(b) ==> a == b)
    }
  }

  class FactStore {
    const codec: Codec
    var history: map<string, File<Record>>
    var backups: map<string, File<string>>
    var projection: string

    function EntryOf(c: Command): Entry {
      Projected(codec.recordId(c.content), c.at, c.content.scope, c.content.sensitivity, c.content.value)
    }

    /** The history holds the record that this entry of the projection stands for. */
    ghost predicate HasHistory(key: string, e: Entry)
      reads this
    {
      e.Projected? ==>
        && e.factId in history && history[e.factId].Full?
        && var r := history[e.factId].content;
          codec.recordId(r.content) == e.factId && r.at == e.at && r.content.key == key
          && r.content.scope == e.scope && r.content.sensitivity == e.sensitivity && r.content.value == e.value
    }

    /** Files are named by their content, and every projected answer has its history. */
    ghost predicate Valid()
      reads this
    {
      && codec.Faithful()
      && (forall id :: id in history && history[id].Full? ==> codec.recordId(history[id].content.content) == id)
      && (forall h :: h in backups && backups[h].Full? ==> codec.digest(backups[h].content) == h)
      && (codec.parse(projection).Some? ==>
            forall k :: k in codec.parse(projection).value.answers ==> HasHistory(k, codec.parse(projection).value.answers[k]))
    }

    constructor (codec: Codec, projection: string)
      requires codec.Faithful()
      requires codec.parse(projection).Some? ==>
        forall k :: k in codec.parse(projection).value.answers ==> codec.parse(projection).value.answers[k].Foreign?
      ensures Valid() && this.codec == codec && this.projection == projection && history == map[] && backups == map[]
    {
      this.codec, this.projection, history, backups := codec, projection, map[], map[];
    }

    /** The projection can be restored from its backup. */
    predicate BackedUp(raw: string)
      reads this
    {
      codec.digest(raw) in backups && backups[codec.digest(raw)] == Full(raw)
    }

    /** Nothing in the way of this command: its history and, when the projection changes, its
        backup are absent or hold exactly what would be written. */
    predicate Unobstructed(c: Command)
      reads this
    {
      var id := codec.recordId(c.content);
      && (id in history ==> history[id] == Full(Record(c.content, c.at)))
      && (!AlreadyProjected(c) && codec.digest(projection) in backups ==> BackedUp(projection))
    }

    /** A history file that was torn, or that records another time for the same content. */
    predicate HistoryConflict(c: Command)
      reads this
    {
      var id := codec.recordId(c.content);
      id in history && history[id] != Full(Record(c.content, c.at))
    }

    /** The backup of the current projection was torn by a crash. */
    predicate TornBackup()
      reads this
    {
      codec.digest(projection) in backups && backups[codec.digest(projection)] == Torn
    }

    predicate AlreadyProjected(c: Command)
      reads this
    {
      && codec.parse(projection).Some?
      && c.content.key in codec.parse(projection).value.answers
      && codec.parse(projection).value.answers[c.content.key] == EntryOf(c)
    }

    /** The history record: create it, or find it there unchanged. */
    method WriteHistory(c: Command, s: Surroundings) returns (stop: Option<Result>)
      requires Valid()
      modifies this`history
      ensures Valid()
      ensures forall id :: id in old(history) ==> id in history && history[id] == old(history)[id]
      ensures stop.None? ==> codec.recordId(c.content) in history && history[codec.recordId(c.content)] == Full(Record(c.content, c.at))
      ensures stop.Some? ==> stop.value == Failed || (stop.value == Died && s.crash != NoCrash)
      ensures s.historyWritable && s.crash !in {BeforeHistory, DuringHistory} ==>
        (stop.None? <==> codec.recordId(c.content) !in old(history)
                         || old(history)[codec.recordId(c.content)] == Full(Record(c.content, c.at)))
    {
      var id := codec.recordId(c.content);
      if s.crash == BeforeHistory { return Some(Died); }
      if id in history {
        return if history[id] == Full(Record(c.content, c.at)) then None else Some(Failed);
      }
      if !s.historyWritable { return Some(Failed); }
      if s.crash == DuringHistory {
        history := history[id := Torn];
        return Some(Died);
      }
      history := history[id := Full(Record(c.content, c.at))];
      return None;
    }

    /** The backup of the projection as it was read. */
    method WriteBackup(s: Surroundings) returns (stop: Option<Result>)
      requires Valid()
      modifies this`backups
      ensures Valid()
      ensures forall h :: h in old(backups) ==> h in backups && backups[h] == old(backups)[h]
      ensures stop.None? ==> BackedUp(projection)
      ensures stop.Some? ==> stop.value == Failed || (stop.value == Died && s.crash != NoCrash)
      ensures s.backupWritable && s.crash !in {BeforeBackup, DuringBackup} ==>
        (stop.None? <==> codec.digest(projection) !in old(backups) || old(BackedUp(projection)))
    {
      var h := codec.digest(projection);
      if s.crash == BeforeBackup { return Some(Died); }
      if h in backups {
        return if backups[h] == Full(projection) then None else Some(Failed);
      }
      if !s.backupWritable { return Some(Failed); }
      if s.crash == DuringBackup {
        backups := backups[h := Torn];
        return Some(Died);
      }
      backups := backups[h := Full(projection)];
      return None;
    }

    /** `write_user_confirmed`. */
    method Write(c: Command, s: Surroundings) returns (r: Result)
      requires Valid()
      modifies this
      ensures Valid()
      ensures forall id :: id in old(history) ==> id in history && history[id] == old(history)[id]
      ensures forall h :: h in old(backups) ==> h in backups && backups[h] == old(backups)[h]
      ensures projection != old(projection) ==>
        && BackedUp(old(projection))
        && OnlyKeyChanged(codec, old(projection), projection, c.content.key, EntryOf(c))
      ensures r == Created || r == Unchanged ==> AlreadyProjected(c)
      ensures old(HistoryConflict(c)) ==> r in {Failed, Died} && projection == old(projection)
      ensures old(TornBackup()) ==> projection == old(projection) && r != Created
      ensures r == Unchanged ==> projection == old(projection)
      ensures r == Failed && projection != old(projection) ==> !s.verifies
      ensures s.Healthy() && c.valid && s.vaultSubject == Some(c.content.subject) && codec.parse(old(projection)).Some? ==>
        (r in {Created, Unchanged} <==> old(Unobstructed(c)))
    {
      if !c.valid || s.vaultSubject != Some(c.content.subject) { return Failed; }
      var parsed := codec.parse(projection);
      if parsed.None? { return Failed; }
      var entry := EntryOf(c);
      var document := parsed.value;
      var stop := WriteHistory(c, s);
      if stop.Some? { return stop.value; }
      if c.content.key in document.answers && document.answers[c.content.key] == entry {
        return Unchanged;
      }
      stop := WriteBackup(s);
      if stop.Some? { return stop.value; }
      if s.crash == BeforeProjection { return Died; }
      if !s.projectionWritable { return Failed; }
      projection := codec.render(document.(answers := document.answers[c.content.key := entry]));
      if s.crash == BeforeVerification { return Died; }
      return if s.verifies then Created else Failed;
    }

    /** Any sequence of writes, each crashing anywhere: history and backups only grow, and
        every version of the projection that was ever current is current or backed up.  A
        torn backup of the current version stops every further change for good. */
    method WriteAll(calls: seq<(Command, Surroundings)>) returns (ghost versions: seq<string>)
      requires Valid()
      modifies this
      ensures Valid()
      ensures |versions| == |calls| + 1 && versions[0] == old(projection) && versions[|calls|] == projection
      ensures forall i :: 0 <= i <= |calls| ==> versions[i] == projection || BackedUp(versions[i])
      ensures forall i :: 0 <= i < |calls| && versions[i] != versions[i + 1] ==>
        OnlyKeyChanged(codec, versions[i], versions[i + 1], calls[i].0.content.key, EntryOf(calls[i].0))
      ensures forall id :: id in old(history) ==> id in history && history[id] == old(history)[id]
      ensures forall h :: h in old(backups) ==> h in backups && backups[h] == old(backups)[h]
      ensures old(TornBackup()) ==> projection == old(projection)
    {
      versions := [projection];
      for n := 0 to |calls|
        invariant Valid() && |versions| == n + 1 && versions[0] == old(projection) && versions[n] == projection
        invariant forall i :: 0 <= i <= n ==> versions[i] == projection || BackedUp(versions[i])
        invariant forall i :: 0 <= i < n && versions[i] != versions[i + 1] ==>
          OnlyKeyChanged(codec, versions[i], versions[i + 1], calls[i].0.content.key, EntryOf(calls[i].0))
        invariant forall id :: id in old(history) ==> id in history && history[id] == old(history)[id]
        invariant forall h :: h in old(backups) ==> h in backups && backups[h] == old(backups)[h]
        invariant old(TornBackup()) ==> projection == old(projection)
      {
        var _ := Write(calls[n].0, calls[n].1);
        versions := versions + [projection];
      }
    }
  }

  /** The new document differs from the old one in one key only. */
  predicate OnlyKeyChanged(codec: Codec, before: string, after: string, key: string, entry: Entry) {
    && codec.parse(before).Some?
    && codec.parse(after) == Some(codec.parse(before).value.(answers := codec.parse(before).value.answers[key := entry]))
  }
}
