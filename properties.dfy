/**
 * What one submission to the handler does, branch by branch, stated over the
 * specification function `Decide`; `Playlists.Post` is proved equal to it.
 */
module SubmissionProperties {
  import opened Wrappers
  import opened Moderation
  import opened AddToPlaylist

  /** The submission passes validation and the configuration check. */
  predicate Admitted(config: Config, sub: Submission)
  {
    Truthy(sub.trackUri) && !(config.playlistId == "" && config.allSongPlaylistId == "")
  }

  /** The submission gets past the token exchange and the duplicate scan. */
  predicate ReachesModeration(config: Config, sub: Submission, up: Upstream)
  {
    Admitted(config, sub) && TokenError(up.token).None? &&
    up.auditPage.Success? && Uri(sub.trackUri.value) !in up.auditPage.value
  }

  /** A body that cannot be parsed ends in the catch block before anything else. */
  lemma UnreadableRequestCrashes(config: Config, error: string, up: Upstream)
    ensures Decide(config, Failure(error), up) == Outcome(Crash(error), [], [], [])
  {
  }

  /**
   * A falsy track id is answered with 400 and nothing else happens; the 400
   * "Track URI is required" answer arises in no other way.
   */
  lemma MissingTrackRejected(config: Config, request: Result<Submission, string>, up: Upstream)
    ensures request.Success? && !Truthy(request.value.trackUri) ==>
      Decide(config, request, up) == Outcome(Response(400, Notice(TrackRequired)), [], [], [])
    ensures Decide(config, request, up).response == Response(400, Notice(TrackRequired)) ==>
      request.Success? && !Truthy(request.value.trackUri)
  {
  }

  /**
   * The configuration check rejects only when both playlist ids are missing;
   * with either one set the handler goes on to the token exchange.
   */
  lemma ConfigCheckNeedsBothMissing(config: Config, sub: Submission, up: Upstream)
    requires Truthy(sub.trackUri)
    ensures config.playlistId == "" && config.allSongPlaylistId == "" ==>
      Decide(config, Success(sub), up) == Outcome(Response(500, Notice(ConfigMissing)), [], [], [])
    ensures config.playlistId != "" || config.allSongPlaylistId != "" ==>
      Decide(config, Success(sub), up).calls[0] == ExchangeToken
  {
  }

  /**
   * A failed token exchange ends the run with 500 and the thrown message:
   * the fetch's own error, the fixed refresh-failure text for a non-2xx
   * answer, or the parse error of a 2xx body that is not JSON.
   */
  lemma TokenFailureCrashes(config: Config, sub: Submission, up: Upstream)
    requires Admitted(config, sub)
    requires up.token.Unreachable? || !IsOk(up.token.status) || up.token.body.Failure?
    ensures Decide(config, Success(sub), up) ==
      Outcome(Crash(if up.token.Unreachable? then up.token.message
                    else if !IsOk(up.token.status) then TokenFailed
                    else up.token.body.error),
              [ExchangeToken], [], [])
  {
  }

  /** A page whose track list cannot be read ends the run before moderation. */
  lemma UnreadablePageCrashes(config: Config, sub: Submission, up: Upstream)
    requires Admitted(config, sub) && TokenError(up.token).None?
    requires up.auditPage.Failure?
    ensures Decide(config, Success(sub), up) ==
      Outcome(Crash(up.auditPage.error), [ExchangeToken, ReadAudit], [], [])
  {
  }

  /**
   * A track whose entry is on the fetched page is refused with 405; the
   * classifier is not asked and neither playlist changes. The 405 "already
   * requested" answer arises in no other way.
   */
  lemma DuplicateShortCircuits(config: Config, sub: Submission, up: Upstream)
    requires Admitted(config, sub) && TokenError(up.token).None? && up.auditPage.Success?
    ensures Uri(sub.trackUri.value) in up.auditPage.value ==>
      Decide(config, Success(sub), up) ==
        Outcome(Response(405, Notice(AlreadyRequested)), [ExchangeToken, ReadAudit], [], [])
    ensures Uri(sub.trackUri.value) !in up.auditPage.value ==>
      Decide(config, Success(sub), up).calls[..3] == ReadCalls(sub)
  {
  }

  /**
   * A classifier call that throws (a rejected request or a reply that does
   * not parse) ends the run with 500 and writes nothing.
   */
  lemma ModerationFailureCrashes(config: Config, sub: Submission, up: Upstream)
    requires ReachesModeration(config, sub, up) && up.verdict.Failure?
    ensures Decide(config, Success(sub), up) ==
      Outcome(Crash(up.verdict.error), ReadCalls(sub), [], [])
  {
  }

  /**
   * An "appropriate" verdict posts the entry to the public playlist and then
   * to the audit playlist, whatever the public write answered. The response is
   * the public write's: 200 with its data, or its own status with its body as
   * details.
   */
  lemma ApprovedWritesPublicThenAudit(config: Config, sub: Submission, up: Upstream)
    requires ReachesModeration(config, sub, up)
    requires up.verdict.Success? && up.verdict.value.evaluation == Appropriate
    requires up.publicWrite.Reply? && up.auditWrite.Reply?
    ensures var o := Decide(config, Success(sub), up);
      var uri := Uri(sub.trackUri.value);
      o.calls == ReadCalls(sub) + [AddTracks(Public, uri), AddTracks(Audit, uri)] &&
      o.publicAdded == Appended(up.publicWrite, uri) &&
      o.auditAdded == Appended(up.auditWrite, uri) &&
      o.response == (if IsOk(up.publicWrite.status)
                     then Response(200, Added(AddedOk, up.publicWrite.body))
                     else Response(up.publicWrite.status, WriteFailed(AddFailed, up.publicWrite.body)))
  {
  }

  /** A public write whose fetch is rejected ends the run before the audit write. */
  lemma ApprovedPublicFetchRejected(config: Config, sub: Submission, up: Upstream)
    requires ReachesModeration(config, sub, up)
    requires up.verdict.Success? && Approved(up.verdict.value)
    requires up.publicWrite.Unreachable?
    ensures Decide(config, Success(sub), up) ==
      Outcome(Crash(up.publicWrite.message),
              ReadCalls(sub) + [AddTracks(Public, Uri(sub.trackUri.value))], [], [])
  {
  }

  /**
   * An audit fetch that is rejected after an approved verdict throws into the
   * catch block: the answer is 500, although the public playlist may already
   * hold the entry and the audit playlist does not.
   */
  lemma ApprovedAuditFetchRejected(config: Config, sub: Submission, up: Upstream)
    requires ReachesModeration(config, sub, up)
    requires up.verdict.Success? && Approved(up.verdict.value)
    requires up.publicWrite.Reply? && up.auditWrite.Unreachable?
    ensures var o := Decide(config, Success(sub), up);
      var uri := Uri(sub.trackUri.value);
      o.response == Crash(up.auditWrite.message) &&
      o.calls == ReadCalls(sub) + [AddTracks(Public, uri), AddTracks(Audit, uri)] &&
      o.publicAdded == Appended(up.publicWrite, uri) &&
      o.auditAdded == []
  {
  }

  /**
   * The audit write's answer never changes the response, as long as its
   * fetch completes: any two answers give the same response.
   */
  lemma AuditReplyIgnored(config: Config, request: Result<Submission, string>, up: Upstream,
                          status: int, body: string)
    requires up.auditWrite.Reply?
    ensures Decide(config, request, up).response ==
            Decide(config, request, up.(auditWrite := Reply(status, body))).response
  {
  }

  /**
   * Any other verdict posts the entry to the audit playlist only and answers
   * 405 with the category and the issues joined by ", ".
   */
  lemma RejectedWritesAuditOnly(config: Config, sub: Submission, up: Upstream)
    requires ReachesModeration(config, sub, up)
    requires up.verdict.Success? && up.verdict.value.evaluation != Appropriate
    requires up.auditWrite.Reply?
    ensures var o := Decide(config, Success(sub), up);
      var uri := Uri(sub.trackUri.value);
      o.calls == ReadCalls(sub) + [AddTracks(Audit, uri)] &&
      o.publicAdded == [] &&
      o.auditAdded == Appended(up.auditWrite, uri) &&
      o.response == Response(405, Notice(
        "Song not added to playlist, decision: " + EvaluationName(up.verdict.value.evaluation) +
        " for reasons: " + Join(up.verdict.value.issues, ", ")))
  {
  }

  /**
   * An audit fetch that is rejected after any other verdict throws into the
   * catch block: the answer is 500 and neither playlist changes.
   */
  lemma RejectedAuditFetchRejected(config: Config, sub: Submission, up: Upstream)
    requires ReachesModeration(config, sub, up)
    requires up.verdict.Success? && !Approved(up.verdict.value)
    requires up.auditWrite.Unreachable?
    ensures Decide(config, Success(sub), up) ==
      Outcome(Crash(up.auditWrite.message),
              ReadCalls(sub) + [AddTracks(Audit, Uri(sub.trackUri.value))], [], [])
  {
  }

  /** The two 405 answers are told apart by their messages. */
  lemma RejectionIsNotDuplicateNotice(v: Verdict)
    ensures RejectionMessage(v) != AlreadyRequested
  {
  }

  /** The submission's entry is on the page the duplicate scan fetched. */
  predicate IsDuplicate(config: Config, request: Result<Submission, string>, up: Upstream)
  {
    request.Success? && Admitted(config, request.value) && TokenError(up.token).None? &&
    up.auditPage.Success? && Uri(request.value.trackUri.value) in up.auditPage.value
  }

  /**
   * The 405 "Song already requested!" answer is given exactly when the
   * submission's entry is on the fetched page, for every request and page.
   */
  lemma AlreadyRequestedOnlyForDuplicates(config: Config, request: Result<Submission, string>, up: Upstream)
    ensures Decide(config, request, up).response == Response(405, Notice(AlreadyRequested))
            <==> IsDuplicate(config, request, up)
  {
  }

  /**
   * Every append carries the same string the duplicate scan compares against,
   * and only entries that were posted are ever added.
   */
  lemma AppendsCarryScannedEntry(config: Config, sub: Submission, up: Upstream)
    requires Admitted(config, sub)
    ensures var o := Decide(config, Success(sub), up);
      (forall c | c in o.calls && c.AddTracks? :: c.uri == Uri(sub.trackUri.value)) &&
      (o.publicAdded != [] ==> AddTracks(Public, o.publicAdded[0]) in o.calls) &&
      (o.auditAdded != [] ==> AddTracks(Audit, o.auditAdded[0]) in o.calls)
  {
  }

  /**
   * Once a submission's entry has been recorded in the audit playlist, a
   * later submission of the same track id is refused as a duplicate, provided
   * the page the later run fetches contains that entry.
   */
  lemma ResubmissionIsDuplicate(config: Config, first: Submission, up1: Upstream,
                                  later: Submission, up2: Upstream)
    requires Admitted(config, first) && later.trackUri == first.trackUri
    requires Decide(config, Success(first), up1).auditAdded != []
    requires TokenError(up2.token).None? && up2.auditPage.Success?
    requires forall e | e in Decide(config, Success(first), up1).auditAdded :: e in up2.auditPage.value
    ensures Decide(config, Success(later), up2) ==
      Outcome(Response(405, Notice(AlreadyRequested)), [ExchangeToken, ReadAudit], [], [])
  {
  }

  /**
   * Two submissions with different track ids never collide in the duplicate
   * scan: an entry refuses only the id it was made from.
   */
  lemma DuplicateOnlyForSameTrack(config: Config, sub: Submission, up: Upstream, other: string)
    requires Admitted(config, sub) && TokenError(up.token).None?
    requires up.auditPage == Success([Uri(other)])
    ensures Decide(config, Success(sub), up).response == Response(405, Notice(AlreadyRequested))
            <==> sub.trackUri.value == other
  {
  }
}
