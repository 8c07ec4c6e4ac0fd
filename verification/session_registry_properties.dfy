/**
 * Properties of the session registry (`SocketVADService`): its operations
 * keep every session filed under its own id, a session asked for again is
 * the same session, cleanup is idempotent and keeps what was just used, and
 * removal undoes creation.
 */
module SessionRegistryProperties {
  import opened Common
  import opened SocketVad
  import opened SocketVadProperties
  import opened SessionRegistry

  // ---------------------------------------------------------------- the keyed invariant

  /** Getting or creating a session keeps every session filed under its own id and valid. */
  lemma OpenedKeyed(m: map<string, Session>, id: Option<string>, freshId: string, c: SessionConfig, now: int, o: Oracles)
    requires Keyed(m) && FrameSize(c) > 0
    ensures Keyed(Opened(m, id, freshId, c, now, o).0)
  {
  }

  /** Processing a chunk keeps every session filed under its own id and valid; the answer names the id asked for. */
  lemma AudioProcessedKeyed(m: map<string, Session>, id: string, decoded: Option<seq<byte>>, now: int, o: Oracles)
    requires Keyed(m)
    ensures var (r, resp) := AudioProcessed(m, id, decoded, now, o);
            Keyed(r) && (resp.InvalidAudio? || resp.sessionId == id)
  {
    if id in m {
      ChunkKeepsIdentity(m[id], decoded, now, o);
    }
  }

  /** Cleanup keeps every session filed under its own id and valid. */
  lemma ExpiredRemovedKeyed(m: map<string, Session>, now: int)
    requires Keyed(m)
    ensures Keyed(ExpiredRemoved(m, now))
  {
  }

  /** Removal keeps every session filed under its own id and valid. */
  lemma RemovedKeyed(m: map<string, Session>, id: string)
    requires Keyed(m)
    ensures Keyed(Removed(m, id).0)
  {
  }

  // ---------------------------------------------------------------- get or create

  /**
   * The session handed back: a live session is the same session, with only
   * its activity time moved; otherwise it is a new one, created now, with
   * the registry's configuration, no frames and no speech.
   */
  lemma OpenedSession(m: map<string, Session>, id: Option<string>, freshId: string, c: SessionConfig, now: int, o: Oracles)
    requires FrameSize(c) > 0
    ensures var (r, sid) := Opened(m, id, freshId, c, now, o);
            var live := GivenId(id) && id.value in m && !Expired(m[id.value], now);
            && (live ==> r[sid] == m[sid].(lastActivity := now))
            && (!live ==> && r[sid].id == sid && r[sid].createdAt == now && r[sid].config == c
                          && r[sid].frames == [] && r[sid].totalFrames == 0 && !r[sid].isSpeaking)
  {
  }

  /**
   * Asking again, at the same time, for the session just handed back gives
   * back that session and leaves the registry as it is (timeouts are not
   * negative).
   */
  lemma {:induction false} ReopenedIsSame(m: map<string, Session>, id: Option<string>, freshId: string, otherId: string,
                                          c: SessionConfig, now: int, o: Oracles)
    requires FrameSize(c) > 0 && c.sessionTimeoutMs >= 0
    requires forall k :: k in m ==> m[k].config.sessionTimeoutMs >= 0
    requires Opened(m, id, freshId, c, now, o).1 != ""
    ensures var (r, sid) := Opened(m, id, freshId, c, now, o);
            Opened(r, Some(sid), otherId, c, now, o) == (r, sid)
  {
    var (r, sid) := Opened(m, id, freshId, c, now, o);
    OpenedSession(m, id, freshId, c, now, o);
    assert r[sid].config.sessionTimeoutMs >= 0;
    assert !Expired(r[sid], now);
    assert r[sid].(lastActivity := now) == r[sid];
    assert r[sid := r[sid]] == r;
  }

  // ---------------------------------------------------------------- cleanup

  /** A second cleanup at the same time removes nothing more. */
  lemma ExpiredRemovedIdempotent(m: map<string, Session>, now: int)
    ensures ExpiredRemoved(ExpiredRemoved(m, now), now) == ExpiredRemoved(m, now)
  {
  }

  /** A session just got or created survives a cleanup at the same time (timeouts are not negative). */
  lemma OpenedSurvivesCleanup(m: map<string, Session>, id: Option<string>, freshId: string, c: SessionConfig, now: int, o: Oracles)
    requires FrameSize(c) > 0 && c.sessionTimeoutMs >= 0
    requires forall k :: k in m ==> m[k].config.sessionTimeoutMs >= 0
    ensures var (r, sid) := Opened(m, id, freshId, c, now, o);
            sid in ExpiredRemoved(r, now) && ExpiredRemoved(r, now)[sid] == r[sid]
  {
    OpenedSession(m, id, freshId, c, now, o);
  }

  /** Only sessions idle for longer than their timeout are removed; whatever is removed had been idle that long. */
  lemma ExpiredRemovedExactly(m: map<string, Session>, now: int, k: string)
    requires k in m
    ensures k !in ExpiredRemoved(m, now) <==> now - m[k].lastActivity > m[k].config.sessionTimeoutMs
  {
  }

  // ---------------------------------------------------------------- removal

  /** Removing the session just created under an unused id gives back the registry as it was. */
  lemma RemovedUndoesCreate(m: map<string, Session>, freshId: string, c: SessionConfig, now: int, o: Oracles)
    requires FrameSize(c) > 0 && freshId !in m
    ensures var (r, sid) := Opened(m, None, freshId, c, now, o);
            sid == freshId && Removed(r, sid) == (m, true)
  {
    var (r, sid) := Opened(m, None, freshId, c, now, o);
    assert r - {sid} == m;
  }

  /** A second removal of the same id finds nothing and changes nothing. */
  lemma RemovedTwice(m: map<string, Session>, id: string)
    ensures var once := Removed(m, id).0;
            Removed(once, id) == (once, false)
  {
    var once := Removed(m, id).0;
    assert once - {id} == once;
  }
}
