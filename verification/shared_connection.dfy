/** Both single-call handlers on one connection: each writes only its own
    identifier key, so neither's teardown decision is disturbed by the other. */
module SharedConnection {
  import opened Json
  import opened Ipc
  import V1 = JsonRpcProtocol
  import V2 = JsonRpc2Protocol

  /** A connection on which every stamped marker comes with an attached session. */
  predicate MarkedHasSession(conn: Connection)
  {
    conn.markers != map[] ==> conn.session.Some?
  }

  /** The 2.0 handler leaves the 1.0 handler's marker as it found it, and the
      other way round; both keep "marked implies a session is attached". */
  lemma MarkersDoNotInterfere(env: Env, request: map<string, Value>, w: World)
    ensures var c := V2.Process(env, request, w).world.conn;
            && (Json1Identifier in c.markers <==> Json1Identifier in w.conn.markers)
            && (Json1Identifier in c.markers ==> c.markers[Json1Identifier] == w.conn.markers[Json1Identifier])
            && (MarkedHasSession(w.conn) ==> MarkedHasSession(c))
    ensures var c := V1.Process(env, request, w).world.conn;
            && (Json2Identifier in c.markers <==> Json2Identifier in w.conn.markers)
            && (Json2Identifier in c.markers ==> c.markers[Json2Identifier] == w.conn.markers[Json2Identifier])
            && (MarkedHasSession(w.conn) ==> MarkedHasSession(c))
  {
  }

  /** On a fresh connection used only by the 2.0 handler, the 1.0 handler's
      teardown clears nothing, and vice versa. */
  lemma TeardownOnlyForOwnVersion(env: Env, request: map<string, Value>, w: World)
    requires w.conn.markers == map[]
    ensures V1.ConnectionDestroyedEvent(V2.Process(env, request, w).world.conn) == []
    ensures V2.ConnectionDestroyedEvent(V1.Process(env, request, w).world.conn) == []
  {
    MarkersDoNotInterfere(env, request, w);
  }
}
