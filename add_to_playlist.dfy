/**
 * The POST handler of /api/add-to-playlist: one track submission is
 * validated, checked against the audit ("all songs") playlist, judged by the
 * moderation service and appended to one or both playlists.
 *
 * The handler's network calls (token refresh, playlist read, classifier,
 * playlist writes) are not performed here: what each of them answered is an
 * input, gathered in `Upstream`. The two playlists and the log of outbound
 * calls are the fields of class `Playlists`, which `Post` updates step by step.
 * `Decide` states, as a function of the inputs, what one submission does.
 */
module AddToPlaylist {
  import opened Wrappers
  import opened Moderation

  /**
   * The JSON body of the request. `trackUri` carries the bare catalog track
   * id (the page sends `track.id`); `None` is an absent or null field.
   */
  datatype Submission = Submission(trackUri: Option<string>, songTitle: string, artist: string)

  /** JavaScript truthiness of the `trackUri` field. */
  predicate Truthy(id: Option<string>)
  {
    id.Some? && id.value != ""
  }

  /**
   * The two playlist ids read from the environment; "" stands for an unset
   * or empty variable, both of which are falsy.
   */
  datatype Config = Config(playlistId: string, allSongPlaylistId: string)

  /** What an HTTP call answered: a status and a body, or a rejected fetch. */
  datatype Reply<T> = Reply(status: int, body: T) | Unreachable(message: string)

  /** `Response.ok`: a status in the 2xx range. */
  predicate IsOk(status: int)
  {
    200 <= status <= 299
  }

  /**
   * The answers of every outside party for one run of the handler:
   * - `token`: the token endpoint; its body is the access token, or the
   *   message of the error parsing the body as JSON;
   * - `auditPage`: the track URIs of the one page the GET on the audit
   *   playlist returned, or the message of the error that was thrown: by a
   *   rejected fetch, by a body that is not JSON, or by reading
   *   `allSongsData.tracks.items` from a body without it (the GET's status is
   *   not checked);
   * - `verdict`: the classifier's reply, or the message of the error the
   *   call threw: a rejected classifier request (a client that cannot be
   *   built, a network error, a refused key or quota) or a reply `JSON.parse`
   *   refuses;
   * - `publicWrite`, `auditWrite`: the two append requests.
   */
  datatype Upstream = Upstream(
    token: Reply<Result<string, string>>,
    auditPage: Result<seq<string>, string>,
    verdict: Result<Verdict, string>,
    publicWrite: Reply<string>,
    auditWrite: Reply<string>)

  datatype Target = Public | Audit

  /** The outbound calls the handler makes, in the order it makes them. */
  datatype Call =
    | ExchangeToken
    | ReadAudit
    | Moderate(songTitle: string, artist: string)
    | AddTracks(target: Target, uri: string)

  /** The JSON bodies the handler answers with. */
  datatype Body =
    | Notice(message: string)
    | WriteFailed(message: string, details: string)
    | Added(message: string, data: string)
    | Crashed(message: string, error: string)

  datatype Response = Response(status: int, body: Body)

  const TrackRequired: string := "Track URI is required"
  const ConfigMissing: string := "Server configuration error: Playlist ID is missing."
  const TokenFailed: string := "Failed to get access token from Spotify."
  const AlreadyRequested: string := "Song already requested!"
  const AddFailed: string := "Failed to add song to playlist."
  const AddedOk: string := "Song added to playlist successfully!"
  const Unexpected: string := "An unexpected error occurred"
  const TrackPrefix: string := "spotify:track:"

  /** The playlist entry for a track id: what is compared and what is appended. */
  function Uri(id: string): (r: string)
    ensures TrackPrefix <= r && r[|TrackPrefix|..] == id
  {
    TrackPrefix + id
  }

  lemma UriInjective(a: string, b: string)
    requires Uri(a) == Uri(b)
    ensures a == b
  {
  }

  /** The response of the catch block for an error with message `error`. */
  function Crash(error: string): (r: Response)
  {
    Response(500, Crashed(Unexpected, error))
  }

  /**
   * The error `getAccessToken` throws, if any: the fetch's own error, a
   * fixed message when the token endpoint answers with a non-2xx status, or
   * the JSON parse error of a 2xx body.
   */
  function TokenError(token: Reply<Result<string, string>>): (e: Option<string>)
    ensures e.None? <==> token.Reply? && IsOk(token.status) && token.body.Success?
    ensures token.Reply? && !IsOk(token.status) ==> e == Some(TokenFailed)
  {
    match token
    case Unreachable(m) => Some(m)
    case Reply(status, body) =>
      if !IsOk(status) then Some(TokenFailed)
      else if body.Failure? then Some(body.error)
      else None
  }

  /** What an append adds to its playlist: the entry, if the write was accepted. */
  function Appended(reply: Reply<string>, uri: string): (added: seq<string>)
    ensures added == [] || added == [uri]
  {
    if reply.Reply? && IsOk(reply.status) then [uri] else []
  }

  /** The effect of one submission: the response, the calls, the entries added. */
  datatype Outcome = Outcome(
    response: Response,
    calls: seq<Call>,
    publicAdded: seq<string>,
    auditAdded: seq<string>)

  /** The outcome of a submission that ends before any append. */
  function Stop(response: Response, calls: seq<Call>): (o: Outcome)
  {
    Outcome(response, calls, [], [])
  }

  /** The calls the handler makes up to and including the moderation request. */
  function ReadCalls(sub: Submission): (calls: seq<Call>)
  {
    [ExchangeToken, ReadAudit, Moderate(sub.songTitle, sub.artist)]
  }

  /**
   * The write stage for a verdict: an approved track is appended to the
   * public playlist and then to the audit playlist; any other verdict only to
   * the audit playlist. The audit reply's status never reaches the response,
   * but a rejected audit fetch throws into the catch block.
   */
  function WriteStage(uri: string, v: Verdict, up: Upstream): (o: Outcome)
    ensures |o.calls| >= 1 && o.calls[|o.calls| - 1].AddTracks?
    ensures o.publicAdded != [] ==> Approved(v)
    ensures o.auditAdded == [] || o.auditAdded == [uri]
  {
    if Approved(v) then
      match up.publicWrite
      case Unreachable(m) => Stop(Crash(m), [AddTracks(Public, uri)])
      case Reply(status, body) =>
        var calls := [AddTracks(Public, uri), AddTracks(Audit, uri)];
        var added := Appended(up.publicWrite, uri);
        match up.auditWrite
        case Unreachable(m) => Outcome(Crash(m), calls, added, [])
        case Reply(_, _) =>
          var response :=
            if IsOk(status) then Response(200, Added(AddedOk, body))
            else Response(status, WriteFailed(AddFailed, body));
          Outcome(response, calls, added, Appended(up.auditWrite, uri))
    else
      match up.auditWrite
      case Unreachable(m) => Stop(Crash(m), [AddTracks(Audit, uri)])
      case Reply(_, _) =>
        Outcome(Response(405, Notice(RejectionMessage(v))), [AddTracks(Audit, uri)],
                [], Appended(up.auditWrite, uri))
  }

  /** Prefixes the calls made before `o`'s stage. */
  function After(calls: seq<Call>, o: Outcome): (r: Outcome)
  {
    o.(calls := calls + o.calls)
  }

  /**
   * What the handler does with a submission whose track id is truthy and
   * whose configuration passed: token, duplicate scan, moderation, writes.
   */
  function Pipeline(sub: Submission, id: string, up: Upstream): (o: Outcome)
    ensures |o.calls| >= 1 && o.calls[0] == ExchangeToken
    ensures o.publicAdded == [] || o.publicAdded == [Uri(id)]
    ensures o.auditAdded == [] || o.auditAdded == [Uri(id)]
  {
    match TokenError(up.token)
    case Some(m) => Stop(Crash(m), [ExchangeToken])
    case None =>
      match up.auditPage
      case Failure(m) => Stop(Crash(m), [ExchangeToken, ReadAudit])
      case Success(page) =>
        if Uri(id) in page then
          Stop(Response(405, Notice(AlreadyRequested)), [ExchangeToken, ReadAudit])
        else
          match up.verdict
          case Failure(m) => Stop(Crash(m), ReadCalls(sub))
          case Success(v) => After(ReadCalls(sub), WriteStage(Uri(id), v, up))
  }

  /**
   * The specification of the handler: the outcome of one submission.
   * `request` is the parsed body, or the message of the error parsing it.
   */
  function Decide(config: Config, request: Result<Submission, string>, up: Upstream): (o: Outcome)
    ensures o.publicAdded != [] ==> o.response.status in {200, 500}
    ensures o.response.status == 200 ==> o.publicAdded != []
    ensures |o.publicAdded| <= 1 && |o.auditAdded| <= 1
    ensures o.calls == [] <==>
      (request.Failure? || !Truthy(request.value.trackUri) ||
       (config.playlistId == "" && config.allSongPlaylistId == ""))
  {
    match request
    case Failure(m) => Stop(Crash(m), [])
    case Success(sub) =>
      if !Truthy(sub.trackUri) then
        Stop(Response(400, Notice(TrackRequired)), [])
      else if config.playlistId == "" && config.allSongPlaylistId == "" then
        Stop(Response(500, Notice(ConfigMissing)), [])
      else
        Pipeline(sub, sub.trackUri.value, up)
  }

  /**
   * The duplicate scan: a linear pass over the fetched page that stops at
   * the first entry equal to `uri`.
   */
  method ScanForTrack(page: seq<string>, uri: string) returns (found: bool)
    ensures found <==> uri in page
  {
    var i := 0;
    while i < |page|
      invariant 0 <= i <= |page|
      invariant forall j :: 0 <= j < i ==> page[j] != uri
    {
      if page[i] == uri {
        return true;
      }
      i := i + 1;
    }
    return false;
  }

  /**
   * The two external playlists as the handler sees them, and the log of the
   * outbound calls made so far.
   */
  class Playlists {
    var publicTracks: seq<string>
    var auditTracks: seq<string>
    var calls: seq<Call>

    constructor (publicTracks: seq<string>, auditTracks: seq<string>)
      ensures this.publicTracks == publicTracks && this.auditTracks == auditTracks
      ensures calls == []
    {
      this.publicTracks := publicTracks;
      this.auditTracks := auditTracks;
      calls := [];
    }

    /** Records an outbound call that changes no playlist. */
    method Send(call: Call)
      requires !call.AddTracks?
      modifies this`calls
      ensures calls == old(calls) + [call]
    {
      calls := calls + [call];
    }

    /**
     * Posts `uri` to the target playlist; the entry lands at the end of that
     * playlist when the write is accepted, and nothing else changes.
     */
    method Append(target: Target, uri: string, reply: Reply<string>)
      modifies this
      ensures calls == old(calls) + [AddTracks(target, uri)]
      ensures target == Public ==>
        publicTracks == old(publicTracks) + Appended(reply, uri) && auditTracks == old(auditTracks)
      ensures target == Audit ==>
        auditTracks == old(auditTracks) + Appended(reply, uri) && publicTracks == old(publicTracks)
    {
      calls := calls + [AddTracks(target, uri)];
      if reply.Reply? && IsOk(reply.status) {
        if target == Public {
          publicTracks := publicTracks + [uri];
        } else {
          auditTracks := auditTracks + [uri];
        }
      }
    }

    /** The handler: one submission, against the answers in `up`. */
    method Post(config: Config, request: Result<Submission, string>, up: Upstream)
      returns (r: Response)
      modifies this
      ensures r == Decide(config, request, up).response
      ensures calls == old(calls) + Decide(config, request, up).calls
      ensures publicTracks == old(publicTracks) + Decide(config, request, up).publicAdded
      ensures auditTracks == old(auditTracks) + Decide(config, request, up).auditAdded
    {
      if request.Failure? {
        return Crash(request.error);
      }
      var sub := request.value;
      if !Truthy(sub.trackUri) {
        return Response(400, Notice(TrackRequired));
      }
      if config.playlistId == "" && config.allSongPlaylistId == "" {
        return Response(500, Notice(ConfigMissing));
      }
      var uri := Uri(sub.trackUri.value);

      Send(ExchangeToken);
      var tokenError := TokenError(up.token);
      if tokenError.Some? {
        return Crash(tokenError.value);
      }

      Send(ReadAudit);
      if up.auditPage.Failure? {
        return Crash(up.auditPage.error);
      }
      var found := ScanForTrack(up.auditPage.value, uri);
      if found {
        return Response(405, Notice(AlreadyRequested));
      }

      Send(Moderate(sub.songTitle, sub.artist));
      if up.verdict.Failure? {
        return Crash(up.verdict.error);
      }
      var verdict := up.verdict.value;

      if Approved(verdict) {
        Append(Public, uri, up.publicWrite);
        if up.publicWrite.Unreachable? {
          return Crash(up.publicWrite.message);
        }
        Append(Audit, uri, up.auditWrite);
        if up.auditWrite.Unreachable? {
          return Crash(up.auditWrite.message);
        }
        if !IsOk(up.publicWrite.status) {
          return Response(up.publicWrite.status, WriteFailed(AddFailed, up.publicWrite.body));
        }
        return Response(200, Added(AddedOk, up.publicWrite.body));
      } else {
        Append(Audit, uri, up.auditWrite);
        if up.auditWrite.Unreachable? {
          return Crash(up.auditWrite.message);
        }
        return Response(405, Notice(RejectionMessage(verdict)));
      }
    }
  }
}
