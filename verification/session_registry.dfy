/**
 * The session registry, after `SocketVADService` in
 * backend/socket_vad_service.py: a dictionary from session id to
 * `UserSession`, with get-or-create, routing of audio chunks, removal of
 * sessions that have been inactive too long, and explicit removal.
 *
 * The clock is the parameter `now` and the id `uuid.uuid4()` would draw is
 * the parameter `freshId`.
 */
module SessionRegistry {
  import opened Common
  import opened SocketVad

  // ---------------------------------------------------------------- the registry as a value

  /** `session_id and ...`: an id that is present and not empty. */
  predicate GivenId(id: Option<string>) {
    id.Some? && id.value != ""
  }

  /** Every session is filed under its own id and is a valid session. */
  predicate Keyed(m: map<string, Session>) {
    forall k :: k in m ==> m[k].id == k && SessionValid(m[k])
  }

  /**
   * `get_or_create_session(session_id)` at time `now`: a live session under
   * the given id is touched and reused; otherwise a new session (replacing an
   * expired one) is filed under the given id, or under `freshId` when none
   * is given. Every other session is left alone.
   */
  function Opened(m: map<string, Session>, id: Option<string>, freshId: string, c: SessionConfig, now: int, o: Oracles)
    : (r: (map<string, Session>, string))
    requires FrameSize(c) > 0
    ensures r.1 in r.0 && r.0.Keys == m.Keys + {r.1}
    ensures forall k :: k in m && k != r.1 ==> r.0[k] == m[k]
    ensures r.1 == if GivenId(id) then id.value else freshId
    ensures r.0[r.1].lastActivity == now
  {
    if GivenId(id) && id.value in m && !Expired(m[id.value], now) then
      (m[id.value := m[id.value].(lastActivity := now)], id.value)
    else
      var sid := if GivenId(id) then id.value else freshId;
      (m[sid := NewSession(sid, c, now, o)], sid)
  }

  /**
   * `process_audio(session_id, audio_data)` at time `now`: the chunk goes
   * to the session filed under the id; an unknown id is an error that
   * changes nothing.
   */
  function AudioProcessed(m: map<string, Session>, id: string, decoded: Option<seq<byte>>, now: int, o: Oracles)
    : (r: (map<string, Session>, ChunkResponse))
    requires id in m ==> SessionValid(m[id])
    ensures r.0.Keys == m.Keys
    ensures forall k :: k in m && k != id ==> r.0[k] == m[k]
    ensures id !in m ==> r == (m, SessionNotFound(id))
  {
    if id in m then
      var (s, resp) := ChunkProcessed(m[id], decoded, now, o);
      (m[id := s], resp)
    else
      (m, SessionNotFound(id))
  }

  /** `_cleanup_expired_sessions()` at time `now`: the sessions that are not expired, untouched. */
  function ExpiredRemoved(m: map<string, Session>, now: int): (r: map<string, Session>)
    ensures forall k :: k in r <==> k in m && !Expired(m[k], now)
    ensures forall k :: k in r ==> r[k] == m[k]
  {
    map k | k in m && !Expired(m[k], now) :: m[k]
  }

  /** `remove_session(session_id)`: the registry without the id, and whether it was there. */
  function Removed(m: map<string, Session>, id: string): (r: (map<string, Session>, bool))
    ensures r.0.Keys == m.Keys - {id}
    ensures forall k :: k in r.0 ==> r.0[k] == m[k]
    ensures r.1 <==> id in m
  {
    (m - {id}, id in m)
  }

  /** Removing one more of the keys `all` still pending removal. */
  lemma SubtractOneMore<K, V>(m: map<K, V>, all: set<K>, pending: set<K>, k: K)
    requires pending <= all && k in pending
    ensures (m - (all - pending)) - {k} == m - (all - (pending - {k}))
  {
    assert (all - pending) + {k} == all - (pending - {k});
  }

  /** Keeping the sessions that have not expired is removing exactly the expired ones. */
  lemma ExpiredRemovedIsSubtraction(m: map<string, Session>, now: int, expired: set<string>)
    requires forall k :: k in expired <==> k in m && Expired(m[k], now)
    ensures ExpiredRemoved(m, now) == m - expired
  {
  }

  // ---------------------------------------------------------------- the registry object

  /** The objects a session owns: itself and its detectors. */
  function Footprint(s: UserSession): set<object> {
    if s.silero == null then {s, s.audio} else {s, s.audio, s.silero}
  }

  /** `SocketVADService`. */
  class SocketVadService {
    var sessions: map<string, UserSession>
    const config: SessionConfig
    const oracles: Oracles
    /** The registry's sessions, as values. */
    ghost var states: map<string, Session>
    ghost var Repr: set<object>

    /** The session filed under `k` is valid, owned by the registry, filed under its own id and described by `states`. */
    ghost predicate Owned(k: string)
      reads this, Repr
      requires k in sessions
    {
      var s := sessions[k];
      && Footprint(s) <= Repr && this !in Footprint(s)
      && s.Valid() && s.id == k && s.oracles == oracles
      && k in states && s.State() == states[k]
    }

    ghost predicate Valid()
      reads this, Repr
    {
      && this in Repr
      && FrameSize(config) > 0
      && states.Keys == sessions.Keys && Keyed(states)
      && (forall k {:trigger Owned(k)} :: k in sessions ==> Owned(k))
      && (forall k, l :: k in sessions && l in sessions && k != l ==> Footprint(sessions[k]) !! Footprint(sessions[l]))
    }

    /** `SocketVADService(config)`: the configuration merged over the defaults, and no sessions. */
    constructor (p: SessionPatch, oracles: Oracles)
      requires FrameSize(MergeSessionConfig(DefaultSessionConfig, p)) > 0
      ensures Valid() && fresh(Repr) && states == map[]
      ensures config == MergeSessionConfig(DefaultSessionConfig, p) && this.oracles == oracles
    {
      sessions := map[];
      config := MergeSessionConfig(DefaultSessionConfig, p);
      this.oracles := oracles;
      states := map[];
      Repr := {this};
    }

    /** `get_or_create_session(session_id)` at time `now`, with `freshId` for the id `uuid4` would draw. */
    method GetOrCreateSession(id: Option<string>, freshId: string, now: int) returns (sid: string, s: UserSession)
      requires Valid()
      modifies Repr
      ensures Valid() && fresh(Repr - old(Repr))
      ensures (states, sid) == Opened(old(states), id, freshId, config, now, oracles)
      ensures sid in sessions && s == sessions[sid]
    {
      var live := false;
      if GivenId(id) && id.value in sessions {
        assert Owned(id.value);
        live := !sessions[id.value].IsExpired(now);
      }
      if live {
        sid, s := TouchSession(id.value, now);
      } else {
        sid, s := CreateSession(if GivenId(id) then id.value else freshId, now);
      }
    }

    /** The reuse half of `get_or_create_session`: the live session filed under `sid` is touched. */
    method TouchSession(sid: string, now: int) returns (id: string, s: UserSession)
      requires Valid() && sid in sessions
      modifies this, sessions[sid]
      ensures Valid() && Repr == old(Repr)
      ensures states == old(states)[sid := old(states)[sid].(lastActivity := now)]
      ensures id == sid && sid in sessions && s == sessions[sid]
    {
      id, s := sid, sessions[sid];
      assert Owned(sid);
      s.UpdateActivity(now);
      states := states[sid := s.State()];
      Updated(sid);
    }

    /** The creation half of `get_or_create_session`: a new session filed under `sid`, replacing any there. */
    method CreateSession(sid: string, now: int) returns (id: string, s: UserSession)
      requires Valid()
      modifies this
      ensures Valid() && fresh(Repr - old(Repr))
      ensures states == old(states)[sid := NewSession(sid, config, now, oracles)]
      ensures id == sid && sid in sessions && s == sessions[sid]
    {
      id := sid;
      s := new UserSession(sid, config, now, oracles);
      sessions := sessions[sid := s];
      states := states[sid := s.State()];
      Repr := Repr + Footprint(s);
      Updated(sid);
    }

    /** `process_audio(session_id, audio_data)` at time `now`, given the outcome of base64 decoding. */
    method ProcessAudio(id: string, decoded: Option<seq<byte>>, now: int) returns (r: ChunkResponse)
      requires Valid()
      modifies Repr
      ensures Valid() && Repr == old(Repr)
      ensures (states, r) == AudioProcessed(old(states), id, decoded, now, oracles)
    {
      if id in sessions {
        r := ForwardChunk(id, decoded, now);
      } else {
        r := SessionNotFound(id);
      }
    }

    /** The chunk handed to the session filed under `id`. */
    method ForwardChunk(id: string, decoded: Option<seq<byte>>, now: int) returns (r: ChunkResponse)
      requires Valid() && id in sessions
      modifies Repr
      ensures Valid() && Repr == old(Repr)
      ensures id in states && (states[id], r) == ChunkProcessed(old(states)[id], decoded, now, oracles)
      ensures states == old(states)[id := states[id]]
    {
      var s := sessions[id];
      assert Owned(id);
      r := s.ProcessAudioChunk(decoded, now);
      states := states[id := s.State()];
      Refiled(id);
    }

    /** `_cleanup_expired_sessions()` at time `now`: the expired ids are collected, then deleted one by one. */
    method CleanupExpiredSessions(now: int)
      requires Valid()
      modifies this
      ensures Valid() && Repr == old(Repr)
      ensures states == ExpiredRemoved(old(states), now)
    {
      var expired := ExpiredIds(now);
      RemoveAll(expired);
      ExpiredRemovedIsSubtraction(old(states), now, expired);
    }

    /** The deletion loop of `_cleanup_expired_sessions`. */
    method RemoveAll(ids: set<string>)
      requires Valid()
      modifies this
      ensures Valid() && Repr == old(Repr)
      ensures sessions == old(sessions) - ids && states == old(states) - ids
    {
      var pending := ids;
      while pending != {}
        invariant Repr == old(Repr) && pending <= ids
        invariant sessions == old(sessions) - (ids - pending)
        invariant states == old(states) - (ids - pending)
        decreases pending
      {
        var k :| k in pending;
        SubtractOneMore(old(sessions), ids, pending, k);
        SubtractOneMore(old(states), ids, pending, k);
        sessions := sessions - {k};
        states := states - {k};
        pending := pending - {k};
      }
      assert ids - {} == ids;
      Shrunk();
    }

    /** The ids of the sessions that have expired at time `now`. */
    method ExpiredIds(now: int) returns (ids: set<string>)
      requires Valid()
      ensures forall k :: k in ids <==> k in states && Expired(states[k], now)
    {
      ids := set k | k in sessions && sessions[k].IsExpired(now);
      forall k | k in sessions
        ensures sessions[k].IsExpired(now) == Expired(states[k], now)
      {
        assert Owned(k);
      }
    }

    /** `get_session_count()`. */
    function SessionCount(): (n: nat)
      reads this, Repr
      requires Valid()
      ensures n == |states.Keys|
    {
      |sessions.Keys|
    }

    /** `get_session(session_id)`: the session filed under the id, or `null`. */
    method GetSession(id: string) returns (s: UserSession?)
      requires Valid()
      ensures s != null <==> id in states
      ensures s != null ==> s.Valid() && s.State() == states[id] && s.id == id
    {
      s := if id in sessions then sessions[id] else null;
      if s != null {
        assert Owned(id);
      }
    }

    /** `remove_session(session_id)`. */
    method RemoveSession(id: string) returns (removed: bool)
      requires Valid()
      modifies this
      ensures Valid() && Repr == old(Repr)
      ensures (states, removed) == Removed(old(states), id)
    {
      removed := id in sessions;
      if removed {
        sessions := sessions - {id};
        states := states - {id};
      } else {
        assert states - {id} == states;
      }
      Shrunk();
    }

    /** A session changed in place, its new state filed under its id, keeps the registry valid. */
    twostate lemma Refiled(k: string)
      requires old(Valid()) && k in old(sessions) && sessions == old(sessions) && Repr == old(Repr)
      requires states == old(states)[k := sessions[k].State()]
      requires sessions[k].Valid()
      requires unchanged(old(Repr) - {this} - Footprint(sessions[k]))
      ensures Valid()
    {
      assert old(Owned(k));
      Updated(k);
    }

    /**
     * Filing one valid session under `k`, either the session already there
     * (after it has changed) or a new one, keeps the registry valid.
     */
    twostate lemma Updated(k: string)
      requires old(Valid()) && k in sessions
      requires sessions == old(sessions)[k := sessions[k]]
      requires states == old(states)[k := sessions[k].State()]
      requires sessions[k].Valid() && sessions[k].id == k && sessions[k].oracles == oracles
      requires Repr == old(Repr) + Footprint(sessions[k])
      requires (k in old(sessions) && sessions[k] == old(sessions[k])) || fresh(Footprint(sessions[k]))
      requires unchanged(old(Repr) - {this} - Footprint(sessions[k]))
      ensures Valid()
    {
      UpdatedOwned(k);
      UpdatedApart(k);
    }

    /** Under `Updated`'s conditions every session is owned. */
    twostate lemma UpdatedOwned(k: string)
      requires old(Valid()) && k in sessions
      requires sessions == old(sessions)[k := sessions[k]]
      requires states == old(states)[k := sessions[k].State()]
      requires sessions[k].Valid() && sessions[k].id == k && sessions[k].oracles == oracles
      requires Repr == old(Repr) + Footprint(sessions[k])
      requires (k in old(sessions) && sessions[k] == old(sessions[k])) || fresh(Footprint(sessions[k]))
      requires unchanged(old(Repr) - {this} - Footprint(sessions[k]))
      ensures forall l :: l in sessions ==> Owned(l)
    {
      forall l | l in sessions
        ensures Owned(l)
      {
        if l != k {
          assert old(Owned(l)) && Footprint(sessions[l]) !! Footprint(sessions[k]);
          StillOwned(l);
        }
      }
    }

    /** Under `Updated`'s conditions the sessions own disjoint objects. */
    twostate lemma UpdatedApart(k: string)
      requires old(Valid()) && k in sessions
      requires sessions == old(sessions)[k := sessions[k]]
      requires states == old(states)[k := sessions[k].State()]
      requires sessions[k].Valid() && sessions[k].id == k && sessions[k].oracles == oracles
      requires Repr == old(Repr) + Footprint(sessions[k])
      requires (k in old(sessions) && sessions[k] == old(sessions[k])) || fresh(Footprint(sessions[k]))
      requires unchanged(old(Repr) - {this} - Footprint(sessions[k]))
      ensures forall l, m :: l in sessions && m in sessions && l != m ==> Footprint(sessions[l]) !! Footprint(sessions[m])
    {
      forall l, m | l in sessions && m in sessions && l != m
        ensures Footprint(sessions[l]) !! Footprint(sessions[m])
      {
        if l == k {
          assert old(Owned(m));
        } else if m == k {
          assert old(Owned(l));
        } else {
          assert old(Footprint(sessions[l]) !! Footprint(sessions[m]));
        }
      }
    }

    /** A session that stayed filed under `l`, untouched, is still owned. */
    twostate lemma StillOwned(l: string)
      requires old(l in sessions) && old(Owned(l)) && l in sessions && sessions[l] == old(sessions[l])
      requires l in states && states[l] == old(states[l])
      requires old(Repr) <= Repr
      requires unchanged(Footprint(sessions[l]))
      ensures Owned(l)
    {
      Kept(sessions[l]);
    }

    /**
     * Dropping sessions from the registry, and nothing else, keeps it valid:
     * the sessions left are the same objects, in the same state.
     */
    twostate lemma Shrunk()
      requires old(Valid()) && Repr == old(Repr)
      requires sessions.Keys <= old(sessions).Keys && states.Keys == sessions.Keys
      requires forall k :: k in sessions ==> sessions[k] == old(sessions[k]) && states[k] == old(states[k])
      requires unchanged(old(Repr) - {this})
      ensures Valid()
    {
      forall k | k in sessions
        ensures Owned(k)
      {
        assert old(Owned(k));
        StillOwned(k);
      }
    }
  }

  /** A session none of whose objects changed is as valid, and in the same state, as it was. */
  twostate lemma Kept(t: UserSession)
    requires old(t.Valid()) && unchanged(Footprint(t))
    ensures t.Valid() && t.State() == old(t.State())
  {
  }
}
