/** JsonFileSessionRepository: one document per run, replaced as a whole. */
module JsonRepositories {
  import opened Wrappers
  import opened Text
  import opened JsonDocuments
  import opened JsonCodec
  import opened JsonRoundTrip

  datatype JsonError = UnsafeRunId | Exists | Unknown | Corrupt | Unsound

  predicate SafeRunId(runId: string) {
    !Blank(runId) && forall i :: 0 <= i < |runId| ==> runId[i] !in {'\\', '/', '\0', '\r', '\n'}
  }

  class JsonFileSessionRepository {
    const env: Env
    var files: map<string, Json>
    // The record last written for each run.
    ghost var written: map<string, StoredSession>

    ghost predicate Valid()
      reads this
    {
      && InverseClock(env)
      && files.Keys == written.Keys
      && forall runId :: runId in files ==>
           written[runId].context.runId == runId && Write(env, written[runId]) == Some(files[runId])
    }

    constructor (env: Env)
      requires InverseClock(env)
      ensures Valid() && files == map[] && this.env == env
    {
      this.env := env;
      files, written := map[], map[];
    }

    method Create(r: StoredSession) returns (error: Option<JsonError>)
      requires Valid()
      modifies this
      ensures Valid()
      ensures error == if !SafeRunId(r.context.runId) then Some(UnsafeRunId)
                       else if r.context.runId in old(files) then Some(Exists)
                       else if !Sound(r) then Some(Unsound) else None
      ensures written == if error == None then old(written)[r.context.runId := r] else old(written)
      ensures error != None ==> files == old(files)
    {
      hide Sound, SafeRunId, EncodeSession;
      if !SafeRunId(r.context.runId) { return Some(UnsafeRunId); }
      if r.context.runId in files { return Some(Exists); }
      var document := Write(env, r);
      if document.None? { return Some(Unsound); }
      files := files[r.context.runId := document.value];
      written := written[r.context.runId := r];
      error := None;
    }

    method Save(r: StoredSession) returns (error: Option<JsonError>)
      requires Valid()
      modifies this
      ensures Valid()
      ensures error == if !SafeRunId(r.context.runId) then Some(UnsafeRunId)
                       else if r.context.runId !in old(files) then Some(Unknown)
                       else if !Sound(r) then Some(Unsound) else None
      ensures written == if error == None then old(written)[r.context.runId := r] else old(written)
      ensures error != None ==> files == old(files)
    {
      hide Sound, SafeRunId, EncodeSession;
      if !SafeRunId(r.context.runId) { return Some(UnsafeRunId); }
      if r.context.runId !in files { return Some(Unknown); }
      var document := Write(env, r);
      if document.None? { return Some(Unsound); }
      files := files[r.context.runId := document.value];
      written := written[r.context.runId := r];
      error := None;
    }

    // The record last written comes back, its revision reset, unless one of its gates is invalid.
    method Get(runId: string) returns (r: Result<StoredSession, JsonError>)
      requires Valid()
      ensures r == if !SafeRunId(runId) then Err(UnsafeRunId)
                   else if runId !in written then Err(Unknown)
                   else if GatesSound(written[runId]) then Ok(written[runId].(revision := 0)) else Err(Corrupt)
    {
      hide SafeRunId, Write, Read, GatesSound, InverseClock;
      if !SafeRunId(runId) { return Err(UnsafeRunId); }
      if runId !in files { return Err(Unknown); }
      ReadingIsTheInverseOfWriting(env, written[runId]);
      var record := Read(env, files[runId], Some(runId));
      r := if record.Raised? then Err(Corrupt) else Ok(record.value);
    }
  }
}
