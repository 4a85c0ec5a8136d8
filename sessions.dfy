/** The per-caller session registry of app/main.py: the module-level dict
    `active_chat_sessions`, from API token to upstream `ChatSession`, and the
    create / reuse / replace decision of `chat_completions`. */
module Sessions {
  import opened Models

  /** The identity of one upstream `GeminiClient` instance. */
  datatype ClientId = ClientId(serial: nat)

  /** The upstream conversation ids a session carries (cid, rid, rcid). */
  type Metadata = seq<string>

  const NoMetadata: Metadata := []

  /** An upstream `ChatSession`, bound to the client and the model it was
      started with. Sessions are compared by identity. */
  class ChatSession {
    const client: ClientId
    const model: GeminiModel
    const metadata: Metadata

    /** `client.start_chat(metadata=..., model=...)`. */
    constructor (client: ClientId, model: GeminiModel, metadata: Metadata)
      ensures this.client == client && this.model == model && this.metadata == metadata
    {
      this.client := client;
      this.model := model;
      this.metadata := metadata;
    }
  }

  /** A request must start a session when the caller has none, or when the
      stored one belongs to another client instance or another model. */
  predicate NeedsNewSession(sessions: map<string, ChatSession>, key: string, client: ClientId, model: GeminiModel) {
    key !in sessions || sessions[key].client != client || sessions[key].model != model
  }

  /** `active_chat_sessions`. */
  class SessionRegistry {
    var sessions: map<string, ChatSession>

    constructor ()
      ensures sessions == map[]
    {
      sessions := map[];
    }

    /** Lines 381-396 of `chat_completions`: reuse the caller's session when it
        is bound to this client and model; otherwise start one (carrying the
        old session's metadata when replacing) and store it under the same
        key. Other callers' sessions are never touched. */
    method Resolve(key: string, client: ClientId, model: GeminiModel) returns (session: ChatSession, isNew: bool)
      modifies this
      ensures isNew == NeedsNewSession(old(sessions), key, client, model)
      ensures session.client == client && session.model == model
      ensures sessions == old(sessions)[key := session]
      ensures forall k :: k != key ==> (k in sessions <==> k in old(sessions))
      ensures forall k :: k != key && k in old(sessions) ==> sessions[k] == old(sessions)[k]
      ensures !isNew ==> key in old(sessions) && session == old(sessions)[key] && sessions == old(sessions)
      ensures isNew ==> fresh(session)
      ensures isNew && key in old(sessions) ==> session.metadata == old(sessions)[key].metadata
      ensures key !in old(sessions) ==> session.metadata == NoMetadata
    {
      isNew := false;
      if key !in sessions {
        isNew := true;
        session := new ChatSession(client, model, NoMetadata);
        sessions := sessions[key := session];
      } else {
        session := sessions[key];
        if session.client != client || session.model != model {
          isNew := true;
          session := new ChatSession(client, model, session.metadata);
          sessions := sessions[key := session];
        }
      }
    }
  }

  /** A caller's session lifecycle on one client: the first request starts a
      session, a repeat reuses it, a model switch replaces it (keeping its
      conversation metadata), and a repeat of the new model reuses that. */
  method SessionLifecycle(key: string, client: ClientId, m1: GeminiModel, m2: GeminiModel)
    returns (fresh1: bool, fresh2: bool, fresh3: bool, fresh4: bool, reused: bool, replaced: bool, carried: bool)
    requires m1 != m2
    ensures fresh1 && !fresh2 && fresh3 && !fresh4
    ensures reused && replaced && carried
  {
    var registry := new SessionRegistry();
    var s1, s2, s3, s4;
    s1, fresh1 := registry.Resolve(key, client, m1);
    s2, fresh2 := registry.Resolve(key, client, m1);
    s3, fresh3 := registry.Resolve(key, client, m2);
    s4, fresh4 := registry.Resolve(key, client, m2);
    reused := s2 == s1 && s4 == s3;
    replaced := s3 != s1 && s3.model == m2 && registry.sessions[key] == s3;
    carried := s3.metadata == s1.metadata;
  }
}
