/** What a handshake, a tool listing and a refresh amount to, case by case. */
module RegistryLaws {
  import opened Prelude
  import opened OutboundHeaders
  import opened Registry

  /**
   * A handshake succeeds when the server accepts, at once or, where it still
   * held an old session, on the retry after that session was terminated. The
   * session ID is then the one given; the old one survives where none is given
   * or the server refuses, unless it was terminated.
   */
  lemma {:induction false} HandshakeMeans(current: string, w: Handshake)
    ensures match w.first
      case Accepted(id) => Outcome(w).Accepted? && SessionAfter(current, w) == (if id == "" then current else id)
      case Failed => !Outcome(w).Accepted? && SessionAfter(current, w) == current
      case AlreadyInitialized =>
        var left := if w.terminated then "" else current;
        match w.second
        case Accepted(id) => Outcome(w).Accepted? && SessionAfter(current, w) == (if id == "" then left else id)
        case _ => !Outcome(w).Accepted? && SessionAfter(current, w) == left
  {}

  /** A server is connected exactly when both steps succeeded, with the listed tools; otherwise it is in error with those kept. */
  lemma {:induction false} ShownAfter(info: ServerInfo, accepted: bool, listing: Option<seq<string>>, kept: seq<string>)
    requires Shows(info, accepted, listing, kept)
    ensures info.status == Connected <==> accepted && listing.Some?
    ensures info.status != Connected ==> info.status == Error && info.tools == kept
    ensures info.status == Connected ==> Some(info.tools) == listing
  {}

  /**
   * A refresh keeps the object of a listed server exactly when the server was
   * registered with the same URL and transport. Any other row gets a new one,
   * whose client has the row's headers.
   */
  lemma {:induction false} KeptWhenSameEndpoint(
    olds: map<string, ServerInfo>, was: map<string, Config>, c: Config, news: map<string, ServerInfo>, before: set<ServerInfo>)
    requires olds.Keys == was.Keys && forall id | id in olds :: olds[id] in before
    requires Reuses(olds, was, c, news, before)
    ensures c.id in news
    ensures news[c.id] in before <==> c.id in was && was[c.id].url == c.url && was[c.id].transport == c.transport
    ensures news[c.id] in before ==> c.id in olds && news[c.id] == olds[c.id]
    ensures news[c.id] !in before ==>
      forall k | k in c.headers :: k in news[c.id].client.headers && news[c.id].client.headers[k] == c.headers[k]
  {}
}
