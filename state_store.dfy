/** `StateManager` (src/state_manager.py): one JSON record per source in the
    state directory, read back at the next run. The directory is a map from
    source id to what its `<id>.json` file holds. */
module StateStore {
  import opened Wrappers
  import opened Json
  import opened Models

  /** The content of one state file:
      - `Stored`: JSON text, decoded;
      - `Unreadable`: text `json.load` rejects (truncated or corrupt JSON),
        or a file `open` cannot read;
      - `NotUtf8`: bytes that are not UTF-8, such as a file cut inside a
        multi-byte character. */
  datatype StoredRecord = Stored(data: Value) | Unreadable | NotUtf8

  /** How one write of a state file ends: completely, with `open` failing
      (the old file stays), or failing after `open` truncated the file,
      either between characters or inside a multi-byte one. */
  datatype WriteOutcome = Written | OpenFailed | FailedMidWrite(splitsCharacter: bool)

  /** What `load_state` raises past its own `except` clause, which catches
      `JSONDecodeError`, `KeyError` and `IOError` only:
      - `BadEncoding`: the `UnicodeDecodeError` of a file that is not UTF-8;
      - `NotARecord`: the `AttributeError` or `TypeError` of a record, or
        a truthy `last_article`, that is not a JSON object. */
  datatype LoadError = BadEncoding | NotARecord

  /** What `load_state` does for `sourceId`: the decoded record, the fresh
      default when the file is missing or the error is caught, or the error
      it raises. */
  function LoadFrom(files: map<string, StoredRecord>, sourceId: string): (r: Result<SourceState, LoadError>)
    ensures sourceId !in files ==> r == Ok(FreshState(sourceId))
    ensures sourceId in files && files[sourceId].Unreadable? ==> r == Ok(FreshState(sourceId))
    ensures sourceId in files && files[sourceId].NotUtf8? ==> r == Err(BadEncoding)
    ensures sourceId in files && files[sourceId].Stored? ==>
              var decoded := StateFromDict(files[sourceId].data);
              && (decoded.Ok? ==> r == Ok(decoded.value))
              && (decoded.Err? && decoded.error.NotAnObject? ==> r == Err(NotARecord))
              && (decoded.Err? && !decoded.error.NotAnObject? ==> r == Ok(FreshState(sourceId)))
  {
    if sourceId !in files then Ok(FreshState(sourceId))
    else match files[sourceId]
      case Unreadable => Ok(FreshState(sourceId))
      case NotUtf8 => Err(BadEncoding)
      case Stored(data) =>
        match StateFromDict(data)
        case Ok(state) => Ok(state)
        case Err(NotAnObject) => Err(NotARecord)
        case Err(_) => Ok(FreshState(sourceId))
  }

  /** `save_state` stamps `last_checked` with the current UTC time and a 'Z'. */
  function Stamp(state: SourceState, now: string): (s: SourceState)
    ensures s.lastChecked == Some(now + "Z")
    ensures s.(lastChecked := state.lastChecked) == state
  {
    state.(lastChecked := Some(now + "Z"))
  }

  /** The directory after writing `state` to its own file. */
  function Persist(files: map<string, StoredRecord>, state: SourceState, w: WriteOutcome): (r: map<string, StoredRecord>)
    ensures forall k :: k != state.sourceId ==> (k in r <==> k in files) && (k in files ==> r[k] == files[k])
    ensures w.Written? ==> state.sourceId in r && r[state.sourceId] == Stored(state.ToDict())
    ensures w.OpenFailed? ==> r == files
    ensures w.FailedMidWrite? ==> state.sourceId in r
                                  && r[state.sourceId] == if w.splitsCharacter then NotUtf8 else Unreadable
  {
    match w
    case Written => files[state.sourceId := Stored(state.ToDict())]
    case OpenFailed => files
    case FailedMidWrite(splitsCharacter) =>
      files[state.sourceId := if splitsCharacter then NotUtf8 else Unreadable]
  }

  /** The state directory. `saved` records every state `save_state` wrote,
      stamped, in order. */
  class StateManager {
    var files: map<string, StoredRecord>
    ghost var saved: seq<SourceState>

    /** A manager over an existing state directory. */
    constructor(files: map<string, StoredRecord>)
      ensures this.files == files && saved == []
    {
      this.files := files;
      saved := [];
    }

    /** `load_state(source_id)`: the loaded state, or the error it raises. */
    method LoadState(sourceId: string) returns (r: Result<SourceState, LoadError>)
      ensures r == LoadFrom(files, sourceId)
    {
      if sourceId !in files {
        return Ok(FreshState(sourceId));
      }
      var record := files[sourceId];
      if record.Unreadable? {
        return Ok(FreshState(sourceId));
      }
      if record.NotUtf8? {
        return Err(BadEncoding);
      }
      var decoded := StateFromDict(record.data);
      if decoded.Err? {
        if decoded.error.NotAnObject? {
          return Err(NotARecord);
        }
        return Ok(FreshState(sourceId));
      }
      return Ok(decoded.value);
    }

    /** `save_state(state)`: stamps the state (the caller's copy is stamped
        too, so the stamped state is returned) and writes it to its own file;
        a failed write is swallowed. */
    method SaveState(state: SourceState, now: string, w: WriteOutcome) returns (stamped: SourceState)
      modifies this
      ensures stamped == Stamp(state, now)
      ensures files == Persist(old(files), stamped, w)
      ensures saved == old(saved) + [stamped]
    {
      stamped := state.(lastChecked := Some(now + "Z"));
      match w {
        case Written =>
          files := files[stamped.sourceId := Stored(stamped.ToDict())];
        case OpenFailed =>
        case FailedMidWrite(splitsCharacter) =>
          if splitsCharacter {
            files := files[stamped.sourceId := NotUtf8];
          } else {
            files := files[stamped.sourceId := Unreadable];
          }
      }
      saved := saved + [stamped];
    }
  }

  /** Saving then loading the same id gives back the saved state, field by
      field, including the stamp. */
  lemma {:induction false} SaveThenLoad(files: map<string, StoredRecord>, state: SourceState, now: string)
    ensures LoadFrom(Persist(files, Stamp(state, now), Written), state.sourceId) == Ok(Stamp(state, now))
  {
    StateRoundTrip(Stamp(state, now));
  }

  /** Saving one source never changes what another source loads. */
  lemma SaveLeavesOthers(files: map<string, StoredRecord>, state: SourceState, now: string, w: WriteOutcome, other: string)
    requires other != state.sourceId
    ensures LoadFrom(Persist(files, Stamp(state, now), w), other) == LoadFrom(files, other)
  {
  }

  /** A write that fails after truncating the file makes the next load start
      from the fresh default, unless the cut splits a character: then the
      next load raises. */
  lemma TruncatedWriteLoadsFresh(files: map<string, StoredRecord>, state: SourceState, now: string, splits: bool)
    ensures !splits ==> LoadFrom(Persist(files, Stamp(state, now), FailedMidWrite(splits)), state.sourceId)
                        == Ok(FreshState(state.sourceId))
    ensures splits ==> LoadFrom(Persist(files, Stamp(state, now), FailedMidWrite(splits)), state.sourceId)
                       == Err(BadEncoding)
  {
  }

  /** A record lacking `source_id` loads as the fresh default of the id asked
      for, provided `last_article` is falsy or an object (otherwise reading it
      raises first). */
  lemma RecordWithoutIdLoadsFresh(files: map<string, StoredRecord>, sourceId: string, fields: map<string, Value>)
    requires sourceId in files && files[sourceId] == Stored(Obj(fields)) && "source_id" !in fields
    requires "last_article" in fields ==> !Truthy(fields["last_article"]) || fields["last_article"].Obj?
    ensures LoadFrom(files, sourceId) == Ok(FreshState(sourceId))
  {
  }

  /** A file holding JSON that is not an object, or a truthy `last_article`
      that is not one, makes the load raise instead of starting fresh. */
  lemma NonObjectRecordRaises(files: map<string, StoredRecord>, sourceId: string)
    requires sourceId in files && files[sourceId].Stored?
    requires var v := files[sourceId].data;
             !v.Obj? || ("last_article" in v.fields && Truthy(v.fields["last_article"]) && !v.fields["last_article"].Obj?)
    ensures LoadFrom(files, sourceId) == Err(NotARecord)
  {
  }

  /** The id a state loads under is the one asked for, unless its file
      names another one. */
  lemma LoadedIdIsRequested(files: map<string, StoredRecord>, sourceId: string)
    requires sourceId in files && files[sourceId].Stored? && StateFromDict(files[sourceId].data).Ok? ==>
               StateFromDict(files[sourceId].data).value.sourceId == sourceId
    ensures LoadFrom(files, sourceId).Ok? ==> LoadFrom(files, sourceId).value.sourceId == sourceId
  {
  }
}
