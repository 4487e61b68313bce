# Moderated song-request pipeline: a Dafny model

This project models the submission handler of a venue's song-request site:
the `POST` handler of `/api/add-to-playlist`. A visitor submits a catalog track
id, with the song's title and artist. The handler then:

1. rejects a missing id with 400;
2. rejects a server with neither playlist id configured with 500;
3. refreshes a Spotify access token;
4. fetches the audit ("all songs") playlist and scans that page for the entry
   `spotify:track:<id>`, answering 405 on a match;
5. asks the moderation classifier for a verdict;
6. appends the entry to the public playlist and then to the audit playlist when
   the verdict is `appropriate`, and only to the audit playlist otherwise;
7. maps each outcome to 200, 400, 405, 500 or the public write's own status.

Any error thrown along the way becomes a 500 that carries the error's message.

The network calls are not performed. What each outside party answered is an
input, collected in `AddToPlaylist.Upstream`:

- the token endpoint's reply, whose body is the access token or the error
  parsing it as JSON;
- the track list of the one page the playlist GET returned, or the message of
  the error that was thrown (a rejected fetch, a body that is not JSON, or a
  body without `tracks.items`);
- the classifier's verdict, or the message of the error the call threw: a
  rejected classifier request or a reply `JSON.parse` refuses;
- the replies to the two append requests.

A reply is either a status with a body or a rejected fetch (`Unreachable`).
The environment's two playlist ids are a `Config`, where `""` stands for an
unset or empty variable.

Files:

- `wrappers.dfy`: `Option` and `Result`.
- `moderation.dfy`: the four-category `Evaluation` and the `Verdict` record
  (`SongEvaluation`), the approval gate, `Array.prototype.join`, and the
  rejection message.
- `add_to_playlist.dfy`: the request, reply and response datatypes;
  `Decide`, the specification function giving one submission's outcome; the
  duplicate scan `ScanForTrack` as a loop; and class `Playlists`.
  `Playlists` holds the two playlists as `seq<string>` fields plus a log of
  outbound calls. Its `Post` method runs the handler step by step and is proved
  equal to `Decide`.
- `properties.dfy`: one lemma per branch of the handler, including each
  rejected fetch, plus the lemmas that relate submissions to each other.

A playlist field grows only when its append is answered with a 2xx status,
which is `Response.ok`. The call log records every request made, whether or not
it was accepted. "No network call happens" is therefore stated on the log.

The model follows what the code does, also where it departs from what its own
comments and messages suggest:

- The comment and the message at route.ts:156-160 speak of a single missing
  "playlist ID", but the check rejects only when BOTH playlist ids are
  missing. With one of them set, the handler goes on and addresses the other
  playlist by the literal id `undefined`.
- The audit write's status never affects the response. However, an audit
  request whose fetch is rejected throws into the catch block and yields 500.
- The GET of the audit playlist is not status-checked. The run ends with a
  500 only when something throws: a rejected fetch, a body that is not JSON,
  or a body without `tracks.items`.
- The duplicate scan sees only the single page the GET returned, not the whole
  audit playlist.

## Model

| member | source | states |
|---|---|---|
| `Moderation.EvaluationName` | src/app/api/add-to-playlist/route.ts:14-19 | the literal of the union for each of the four categories (a plain definition) |
| `Moderation.EvaluationNameInjective` | src/app/api/add-to-playlist/route.ts:47-52 | distinct categories have distinct literals |
| `Moderation.Approved` | src/app/api/add-to-playlist/route.ts:195 | the datatype test for approval agrees with the handler's string comparison `evaluation === "appropriate"` |
| `Moderation.Join` | src/app/api/add-to-playlist/route.ts:258 | `issues.join(", ")`: no parts give ""; otherwise the result starts with the first part and holds every part's characters plus one separator fewer than there are parts |
| `Moderation.JoinSnoc` | src/app/api/add-to-playlist/route.ts:258 | the recursive `Join` agrees with JavaScript's left-to-right join: appending a part appends the separator and the part |
| `Moderation.RejectionMessage` | src/app/api/add-to-playlist/route.ts:256-258 | the 405 message starts with "Song not added to playlist, decision: " followed by the category's literal |
| `Moderation.RejectionMessageDetermines` | src/app/api/add-to-playlist/route.ts:254-261 | the rejection message determines the verdict's category and its joined issue list |
| `AddToPlaylist.Truthy` | src/app/api/add-to-playlist/route.ts:149 | JavaScript truthiness of `trackUri`: a present, non-empty id (a plain definition) |
| `AddToPlaylist.Uri` | src/app/api/add-to-playlist/route.ts:184 | the entry is `spotify:track:` followed by the id, which can be read back from it |
| `AddToPlaylist.UriInjective` | src/app/api/add-to-playlist/route.ts:184 | distinct track ids give distinct `spotify:track:` entries |
| `AddToPlaylist.Crash` | src/app/api/add-to-playlist/route.ts:263-270 | the catch block's answer: 500 with the generic message and the error's message (a plain definition) |
| `AddToPlaylist.IsOk` | src/app/api/add-to-playlist/route.ts:224 | `response.ok`: a status from 200 to 299 |
| `AddToPlaylist.TokenError` | src/app/api/add-to-playlist/route.ts:130-137 | the token step throws exactly when its fetch is rejected, its reply is not 2xx, or its 2xx body is not JSON; a non-2xx reply throws the fixed refresh-failure text |
| `AddToPlaylist.Appended` | src/app/api/add-to-playlist/route.ts:204-206 | an append adds nothing or exactly the posted entry to its playlist |
| `AddToPlaylist.WriteStage` | src/app/api/add-to-playlist/route.ts:195-262 | the write stage ends with an append, adds to the public playlist only for an approved verdict, and adds only the submission's own entry to the audit playlist |
| `AddToPlaylist.Pipeline` | src/app/api/add-to-playlist/route.ts:165-262 | past the configuration check, the first call is always the token exchange, and each playlist gains at most the submission's own entry |
| `AddToPlaylist.Decide` | src/app/api/add-to-playlist/route.ts:144-272 | a 200 answer means the public playlist gained the entry; a public addition ends in 200 or 500; no outbound call happens exactly when the body is unreadable, the id is falsy, or both ids are unset |
| `AddToPlaylist.ScanForTrack` | src/app/api/add-to-playlist/route.ts:183-190 | the linear scan with early exit finds a match exactly when the entry is on the fetched page |
| `AddToPlaylist.Playlists.Send` | src/app/api/add-to-playlist/route.ts:166-192 | the token, read and moderation requests are logged in order and change no playlist |
| `AddToPlaylist.Playlists.Append` | src/app/api/add-to-playlist/route.ts:196-221 | an append request is logged; the entry is added at the end of the target playlist when the write is accepted; the other playlist is unchanged |
| `AddToPlaylist.Playlists.Post` | src/app/api/add-to-playlist/route.ts:144-272 | the step-by-step handler returns `Decide`'s response, logs exactly its calls, and extends each playlist by exactly its additions |
| `SubmissionProperties.UnreadableRequestCrashes` | src/app/api/add-to-playlist/route.ts:263-270 | a body that fails to parse gives 500 with the error's message, and nothing else happens |
| `SubmissionProperties.MissingTrackRejected` | src/app/api/add-to-playlist/route.ts:146-154 | a falsy track id gives 400 "Track URI is required", with no call and no write; that response arises in no other way |
| `SubmissionProperties.ConfigCheckNeedsBothMissing` | src/app/api/add-to-playlist/route.ts:157-163 | both ids unset gives 500 before any call; with either id set, the handler proceeds to the token exchange |
| `SubmissionProperties.TokenFailureCrashes` | src/app/api/add-to-playlist/route.ts:130-137 | a failed token exchange gives 500 with the thrown message (the fetch error, the fixed refresh-failure text, or the JSON parse error); only the token call is made |
| `SubmissionProperties.UnreadablePageCrashes` | src/app/api/add-to-playlist/route.ts:179-181 | an unreadable playlist page gives 500 with the error's message, before moderation and with no write |
| `SubmissionProperties.DuplicateShortCircuits` | src/app/api/add-to-playlist/route.ts:183-192 | an entry on the page gives 405 "Song already requested!" after only the token and read calls, changing neither playlist; otherwise the classifier is asked next |
| `SubmissionProperties.ModerationFailureCrashes` | src/app/api/add-to-playlist/route.ts:192 | a classifier call that throws (a rejected request or a reply that does not parse) gives 500 with the error's message, after the three read calls and with no write |
| `SubmissionProperties.ApprovedWritesPublicThenAudit` | src/app/api/add-to-playlist/route.ts:195-239 | an "appropriate" verdict posts to public and then to audit, whatever the public status; the answer is 200 with the public data, or the public status with its body as details |
| `SubmissionProperties.ApprovedPublicFetchRejected` | src/app/api/add-to-playlist/route.ts:196-208 | a rejected public fetch gives 500, and no audit write follows |
| `SubmissionProperties.ApprovedAuditFetchRejected` | src/app/api/add-to-playlist/route.ts:209-221 | after an approved verdict, a rejected audit fetch gives 500 with its message after both append calls; the public playlist keeps whatever its write added and the audit playlist gains nothing |
| `SubmissionProperties.AuditReplyIgnored` | src/app/api/add-to-playlist/route.ts:209-221 | any two completed audit replies give the same response |
| `SubmissionProperties.RejectedWritesAuditOnly` | src/app/api/add-to-playlist/route.ts:240-261 | any other verdict posts to audit only and leaves public unchanged; the answer is 405 "Song not added to playlist, decision: <category> for reasons: <issues joined by ', '>" |
| `SubmissionProperties.RejectedAuditFetchRejected` | src/app/api/add-to-playlist/route.ts:241-253 | after any other verdict, a rejected audit fetch gives 500 with its message and changes neither playlist |
| `SubmissionProperties.RejectionIsNotDuplicateNotice` | src/app/api/add-to-playlist/route.ts:185-187 | the moderation rejection message is never the "Song already requested!" message |
| `SubmissionProperties.AlreadyRequestedOnlyForDuplicates` | src/app/api/add-to-playlist/route.ts:183-190 | for every request and every page, the 405 "Song already requested!" answer is given exactly when the submission passes the earlier steps and its entry is on the fetched page |
| `SubmissionProperties.AppendsCarryScannedEntry` | src/app/api/add-to-playlist/route.ts:184-253 | every append carries the exact string the duplicate scan compares against, and every added entry was posted to that playlist |
| `SubmissionProperties.ResubmissionIsDuplicate` | src/app/api/add-to-playlist/route.ts:183-253 | once a submission's entry is recorded in the audit playlist, a later submission of the same id gives 405 with no moderation, provided the fetched page holds that entry |
| `SubmissionProperties.DuplicateOnlyForSameTrack` | src/app/api/add-to-playlist/route.ts:183-190 | entries do not collide across ids: a page holding one entry refuses a submission as a duplicate exactly when its id is the one that made the entry |

## Left out

- `getAccessToken` (route.ts:113-138): the refresh-token grant of section 6 of RFC 6749 and its Basic authorization header. The model keeps only its outcome: a token, a rejected fetch, a non-2xx reply that throws the fixed message, or a 2xx body that fails to parse as JSON. A JSON body without `access_token` is not modelled: the code then goes on with an undefined token, and the model treats it as a token.
- `lookUpSongApproval` (route.ts:26-107): the classifier call, its prompt and its response schema. The model keeps only its result: a `Verdict`, or the message of the error the call threw (the client cannot be built, `generateContent` rejects, or `JSON.parse` refuses the reply). A reply that `JSON.parse` accepts but that breaks the schema is treated as a parse error: the schema constrains the reply, but the cast in the code does not check it.
- The title and artist are only passed to the classifier, so they are kept only in the logged `Moderate` call.
- A track id that is truthy but not a string (a number, say) is not modelled. The track id is an optional string.
- Playlist items whose `track` is null would throw in the scan. These are not modelled: the page is a list of URI strings.
- `response.json()` on the public write's reply is assumed to succeed. Its body is carried as an opaque string (`data` or `details`).
- The two playlists are assumed to be distinct. When both environment variables name the same playlist, the code appends an approved track to it twice and puts a rejected track into the public-facing playlist. The model keeps the playlists as two independent fields, so it does not capture this aliasing.
- A rejected fetch is taken to leave its playlist unchanged, and an accepted (2xx) write is taken to append exactly one entry at the end.
- Pagination of the audit playlist is not modelled. The scan sees one page.
- Concurrent submissions and the race between the duplicate scan and the writes are not modelled. The model handles one submission at a time.
- HTTP headers, URLs, JSON encoding and `console.error` logging are not modelled.
- The search passthrough (src/app/api/request-song/route.ts), the authorization-code callback (src/app/api/spotify/callback/route.ts) and the React pages are not part of this model.
