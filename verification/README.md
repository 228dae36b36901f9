# Verification of the end-to-end doubles and the lifecycle they drive

This project models the stateful parts of the end-to-end suite and the product code they stand in for,
and proves what they promise over all inputs, runs and reachable states.

- **The GitHub double** (`Tokens`, `GitHub`, `GitHubRuns`, `GitHubListings`, `GitHubConditional`,
  `GitHubTags`): an in-memory service as a class with one method per request, proved against a step function.
  Over whole runs it shows the device grant to be a ledger (RFC 8628, sections 3.2 to 3.5), refresh chains to
  keep their identity (RFC 6749, section 6), conditional requests to refine plain ones (RFC 9110, sections
  13.1.2 and 15.4.5) and paging to end and to agree with direct lookup (RFC 8288, section 3). The catalogue
  is any list of repositories with distinct names.
- **Socket proxies and frame logs** (`Frames`, `Sequences`, `WatchedSockets`, `Recorder`, `FaultyLink`,
  `ChatLog`, `Replies`): classes over maps and logs, with non-interference, lossy-link and completeness
  properties over every interleaving of handler calls.
- **Chat delivery** (`Addressing`, `ChatDelivery`): composer, link and server as one state machine, with
  exactly-once delivery over a link that loses requests or acknowledgements, and the exact messages that can
  be delivered at all.
- **The questionnaire printer** (`Questionnaire`): printed markup and stored state describe the same items;
  a reference parser for the markup gives the round trip.
- **The task lifecycle and the seeded build** (`Lifecycle`, `LifecycleLogs`, `LifecycleReplay`,
  `LifecycleOrder`, `LifecycleRuns`, `LifecyclePlans`, `LifecycleQuiet`, `LifecycleStops`,
  `LifecycleOutcomes`, `LifecycleResumes`, `LifecycleRebuilds`, `LifecycleSafety`, `LiveRecord`, `LostOrder`,
  `LostPlan`, `LostResume`, `BuildSeed`): runs as event logs, transitions over them, dependency order, replay,
  stopping, resuming and rebuilding, the record of a live document, restoring from storage, and the command
  loop that drives one build through all of it.
- **Small algorithms** (`Deck`, `Judgment`, `Outline`): the deck-paging loop, the classifier answers with
  their probabilities, and the recogniser of invisible outline colours.

Some properties one would expect fail in a corner; each is given with its exact condition:

- A cache goes stale on a revoked handle's listing, and that handle's first listing can overstate pull
  (`GitHubConditional.CachingIsExact`, `GitHubListings.ListedPermissions`).
- Two pages, one of which ends in the other's installation and page, let one entity tag stand for two bodies
  (`GitHubTags.HyphenatedPagesCollide`).
- An injected rid that the server had already used is seen by the page (`WatchedSockets.PageSeesUninjected`).
- A message that is too long, or only summons the Planner, stays in the composer for ever
  (`ChatDelivery.OneRoundTripSuffices`).
- A failed review can leave a task done while a dependency of it is under way again
  (`LifecycleOrder.OrderHoldsExactly`, with a concrete log in `LostOrder`).
- A plan cannot be restored after any of four steps: a live release or a stop that archives a log which is
  not quiet, a resume that finishes a version another run has implemented, and a rebuild with an address not
  spelled exactly or of an older document (`LifecycleSafety.LifeRestoresExactly`, with concrete lives in
  `LostPlan` and `LostResume`).
- The record of a live document cannot be read back after a commit on a known pull request in another
  spelling, a hundred and first pull request, or an edit settled past the target of a failed rebuild
  (`LiveRecord.RecordRestoresExactly`).

`dafny verify dfyconfig.toml` checks everything. Paths below are relative to the repository.

## Model

| member | source | states |
|---|---|---|
| Tokens.SplitIsUnique | e2e/github.ts:202-222 | A text splits as handle, underscore, digits in at most one way, although handles may hold underscores and digits: at its last underscore. |
| Tokens.MatchMeansSplit | e2e/github.ts:202-222 | The greedy backtracking match of `(.+)_(\d+)` finds a capture exactly when such a split exists, and then that one. |
| Tokens.RefreshRoundTrip | e2e/github.ts:202-212 | A refresh token reads back as exactly the handle and revision it was minted for, if and only if the handle is not empty and has no line terminator; otherwise it reads as nothing. |
| Tokens.BearerRoundTrip | e2e/github.ts:210-222 | The access token minted for a handle and any revision reads back as that handle through the bearer pattern, under the same condition and only then. |
| Tokens.ReadRefreshIsSound | e2e/github.ts:202-206 | Whatever text reads as a refresh token has the shape that is minted: prefix, readable handle, underscore and a numeral of the revision read. |
| Tokens.MintingIsInjective | e2e/github.ts:208-212 | Two pairs of handle and revision that share a token text are equal, for all handles. |
| GitHub.GitHub.constructor | e2e/github.ts:7-8 | A new service has issued no code, counts from zero and has counted no listing. |
| GitHub.GitHub.Fetch | e2e/github.ts:173-311 | One request updates the three mutable fields and answers exactly as the step function of the service, whose runs the lemmas below are about. |
| GitHub.GitHub.Token | e2e/github.ts:186-217 | The token endpoint redeems an approved device code once, renews or refuses a refresh token, or grants a sign-in code, as the step function does. |
| DeviceGrant.UserCodesDiffer | e2e/github.ts:175-176 | Equal user codes carry equal numbers: zero padding loses nothing, also past four digits. |
| DeviceGrant.CodesStep | e2e/github.ts:174-200 | A request issues one code, redeems one outstanding code against the trimmed approval, or leaves codes and counter alone; a device poll is granted if and only if it is approved. |
| DeviceGrant.LedgerHolds | e2e/github.ts:174-200 | In every run with fresh private codes, outstanding and redeemed codes partition the issued ones, none is redeemed twice, each outstanding one keeps its number, and their counts sum to `nextCode`. |
| DeviceGrant.PollIsGrantedExactly | e2e/github.ts:189-200 | In every run a poll is granted if and only if its private code was issued, was not redeemed, and the approval holds exactly the user code handed out with it. |
| DeviceGrant.GrantAt | e2e/github.ts:189-193 | Every grant of a run redeems a private code that no earlier grant redeemed, whose user code is the trimmed approval. |
| DeviceGrant.AnsweredUserCodesDiffer | e2e/github.ts:174-185 | No two device-code answers of a run share a private code or a user code. |
| DeviceGrant.OneGrantPerApproval | e2e/github.ts:189-200 | Two grants of one run have different private codes and different approvals: an approval lets in one sign-in. |
| DeviceGrant.RepeatedCodeIsLost | e2e/github.ts:175-177 | Freshness is needed: with a repeated private code the counter is two while one code is outstanding and none was redeemed. |
| RefreshChains.RenewOnce | e2e/github.ts:202-214 | In any state a minted refresh token is answered with the next revision of the same handle, or refused, exactly when the handle is `expired` or unreadable. |
| RefreshChains.SignInOnce | e2e/github.ts:204-215 | Any sign-in code is granted revision 1 of its handle and leaves the state alone. |
| RefreshChains.ChainKeepsIdentity | e2e/github.ts:202-215 | After a sign-in and n refreshes, with any other traffic between them, the client holds revision n + 1 of its own handle, or a refusal exactly for the handles that cannot refresh. |
| RefreshChains.ChainAuthenticates | e2e/github.ts:202-222 | Every access token of such a chain authenticates as the handle of the chain, if and only if that handle is readable. |
| GitHubListings.CollectsInstallation101 | e2e/github.ts:255-301 | Following the pages of installation 101 collects the whole computed listing, paged or not. |
| GitHubListings.CollectsInstallation102 | e2e/github.ts:255-301 | Installation 102 lists the personal repositories the handle can see. |
| GitHubListings.RepositoryRouteIsFree | e2e/github.ts:302-311 | No repository a handle can see is shadowed by the commit or reference routes. |
| GitHubListings.ListedOnce | e2e/github.ts:223-301 | For every catalogue and handle the two collected listings hold each repository name at most once, none in both. |
| GitHubListings.ListedIffReachable | e2e/github.ts:223-311 | A name is listed if and only if a direct lookup finds it and one of the two installed accounts owns it. |
| GitHubListings.ListedComesFrom | e2e/github.ts:223-301 | Every listed repository is a catalogue entry the handle can see, with its permissions lowered. |
| GitHubListings.ListedPermissions | e2e/github.ts:223-310 | Listed pull and push never exceed those of the direct lookup, if and only if it is not a revoked handle's first read of a score that cannot be pulled. |
| GitHubRevocation.CounterCountsListings | e2e/github.ts:267-278 | In every run the counter of a revoked handle is the number of its own installation-101 listings. |
| GitHubRevocation.OthersDoNotMatter | e2e/github.ts:267-278 | What a handle is answered is the same after all exchanges of all other handles are removed from the run. |
| GitHubRevocation.RevocationIsPermanent | e2e/github.ts:267-278 | In every run, with or without If-None-Match, a revoked handle is answered its whole current listing, or 304 if it holds the tag; the listing offers pull on score if and only if it is that handle's first, and never push. |
| GitHubConditional.ConditionOnlyHidesBody | e2e/github.ts:233-240 | In every state a conditional request moves the service to the state of the plain one and changes nothing but the delivery of the body. |
| GitHubConditional.TaggedAnswersAreStable | e2e/github.ts:233-301 | Two tagged answers to one request in any two states are equal, unless the request is a revoked handle's installation-101 listing of a catalogue with score. |
| GitHubConditional.CachingIsExact | e2e/github.ts:233-301 | In every run, with any other traffic, the caching client leaves the service in the same state and is delivered exactly what an uncached one is, if and only if it never asks again for a listing that it cached as the first one of a revoked handle. |
| GitHubConditional.CachingIsInvisible | e2e/github.ts:233-301 | In every run with any other traffic but no such request by the client, a cache by handle and URL is delivered exactly what a client without a cache is, and leaves the service in the same state. |
| GitHubConditional.RevokedHandleGoesStale | e2e/github.ts:267-278 | Every request, asked twice, goes stale if and only if it is a revoked handle's installation-101 listing of a catalogue with score, whatever its authorization and URL. |
| GitHubTags.TagTextIsInjective | e2e/github.ts:255-306 | The text of a tag determines its family, handle, installation and page, unless it is a listing whose page collides with the other's. |
| GitHubTags.ListingTagsCollideExactly | e2e/github.ts:255-294 | For any two installations and pages there are readable handles whose listing tags agree though they list different things, if and only if one page, behind its hyphen, ends in the other's installation and page. |
| GitHubTags.EqualTagsMeanEqualBodies | e2e/github.ts:233-306 | Equal tags mean equal bodies across all handles and URLs whose pages do not collide, revoked first listings excepted. |
| GitHubTags.HyphenatedPagesCollide | e2e/github.ts:255-294 | Two listing URLs give one tag to two different bodies, for some catalogue and two ordinary handles, if and only if their pages collide in that sense. |
| GitHubTags.SharedCachingIsInvisible | e2e/github.ts:233-306 | One table of bodies keyed by tag alone, shared by all handles and revalidating with any tag it holds, delivers exactly what uncached clients get, as long as no two requests collide and none is a revoked listing. |
| GitHubTags.CoveredPageGoesStale | e2e/github.ts:233-294 | Conversely, for any two pages of which one covers the other, the shared table delivers one handle the listing of another. |
| Questionnaire.AttributeIsOnePass | e2e/decision-option-previews.e2e.ts:40-42 | The two replacement passes equal one map over characters. |
| Questionnaire.AttributeRoundTrip | e2e/decision-option-previews.e2e.ts:40-42 | An escaped value holds no bare quote and decodes to the value. |
| Questionnaire.EscapeRoundTrip | e2e/decision-option-previews.e2e.ts:40-42 | The one-pass map has no quote in its image and is undone by decoding. |
| Questionnaire.CleanWithoutSpecials | e2e/decision-option-previews.e2e.ts:44-94 | A field without quotes and ampersands survives being printed unescaped. |
| Questionnaire.ReadPrintedBlock | e2e/decision-option-previews.e2e.ts:49-68 | One printed questionnaire followed by any text reads back as that item and leaves exactly that text, if its unescaped fields are clean. |
| Questionnaire.ReadPrintedBlocks | e2e/decision-option-previews.e2e.ts:44-94 | Every list of items with clean unescaped fields reads back item by item, in order. |
| Questionnaire.SourceRoundTrip | e2e/decision-option-previews.e2e.ts:44-94 | The printed source parses back to exactly the items, absent and empty previews, descriptions and criteria identified, if and only if every field printed without escaping is clean. |
| Questionnaire.Seeded | e2e/decision-option-previews.e2e.ts:44-94 | The loop prints the source and pushes the records in step: for clean items the source describes exactly the definitions in `questions` and `openQuestions`, in order. |
| WatchedSockets.Proxy.constructor | e2e/harness-children.e2e.ts:22-26 | A new proxy has logged, injected and sent nothing. |
| WatchedSockets.Proxy.Routed | e2e/harness-children.e2e.ts:33-36 | A new socket becomes the one injections into its channel go to; nothing else changes. |
| WatchedSockets.Proxy.PageMessage | e2e/harness-children.e2e.ts:37-40 | A page message is logged if it is text and always forwarded. |
| WatchedSockets.Proxy.ServerMessage | e2e/harness-children.e2e.ts:41-45 | A server message is logged if it is text and shown unless it answers an injected request. |
| WatchedSockets.Proxy.InjectFrame | e2e/harness-children.e2e.ts:50-53 | An injection is remembered and sent to the channel's newest socket, and fails exactly if there is none. |
| WatchedSockets.Proxy.Closed | e2e/harness-children.e2e.ts:33-36 | A closed socket is no longer reached by either side; its frames stay logged. |
| WatchedSockets.PageSeesUninjected | e2e/harness-children.e2e.ts:22-53 | In every interleaving a page receives exactly the server messages of its socket whose rid is never injected, in order, if and only if on this socket each such rid is injected before the server uses it. |
| WatchedSockets.InjectionIsInvisible | e2e/harness-children.e2e.ts:22-53 | What a page receives equals what it receives in the run from which all injections and their answers are erased, under the same condition and only then. |
| WatchedSockets.StaleRidIsSeen | e2e/harness-children.e2e.ts:41-53 | The condition can fail: an answer to a rid that is injected only afterwards is shown. |
| WatchedSockets.LogsAreComplete | e2e/harness-children.e2e.ts:27-45 | The `sent` and `received` logs of a channel are exactly the text frames of its sockets, in order, hidden answers included and injections excluded. |
| WatchedSockets.ServerSeesInterleaving | e2e/harness-children.e2e.ts:37-53 | A server receives an order-preserving interleaving of its page's messages and the frames injected into it. |
| Recorder.Proxy.constructor | e2e/conversation-initiative.e2e.ts:15-18 | A new recorder has logged nothing and is armed as asked. |
| Recorder.Proxy.Routed | e2e/conversation-initiative.e2e.ts:19-21 | Connections are numbered from one in the order they open. |
| Recorder.Proxy.LoseNextAcknowledgement | e2e/conversation-initiative.e2e.ts:46 | Arming affects nothing but the next acknowledgement. |
| Recorder.Proxy.PageMessage | e2e/conversation-initiative.e2e.ts:22-28 | Chat frames of the page are logged and every message is forwarded. |
| Recorder.Proxy.ServerMessage | e2e/conversation-initiative.e2e.ts:29-41 | Chat frames of the server are logged and forwarded, except that an armed proxy closes the connection instead of delivering an acknowledgement, and is then disarmed. |
| Recorder.Proxy.Closed | e2e/conversation-initiative.e2e.ts:19-21 | A socket that either side closed passes nothing more. |
| Recorder.NumberedAlways | e2e/conversation-initiative.e2e.ts:19-21 | In every run connection numbers are distinct, positive and at most the number of connections. |
| Recorder.OnlyAcknowledgementsAreLost | e2e/conversation-initiative.e2e.ts:15-41 | In every run either side hears exactly what the other said on an open connection, but for the last message of a closed one, which is an acknowledgement; there are at most as many closed connections as armings. |
| Recorder.LogIsComplete | e2e/conversation-initiative.e2e.ts:20-41 | The log of a connection is exactly the chat frames of its server, in order, the lost acknowledgement included. |
| Recorder.SentIsComplete | e2e/conversation-initiative.e2e.ts:22-28 | The `sent` log is an order-preserving interleaving of exactly the chat frames each server received. |
| FaultyLink.Proxy.constructor | e2e/connection.e2e.ts:73-76 | A new link is online, passes sends and has no socket. |
| FaultyLink.Proxy.Routed | e2e/connection.e2e.ts:73-80 | A socket connects if and only if the link is not offline. |
| FaultyLink.Proxy.PageMessage | e2e/connection.e2e.ts:81-98 | A send is passed, cut or refused by the current mode; everything else passes. |
| FaultyLink.Proxy.Closed | e2e/connection.e2e.ts:99-109 | A socket that either side or the test closed is no longer open. |
| FaultyLink.LinkIsAFilter | e2e/connection.e2e.ts:81-98 | In every run a server receives exactly the messages its page attempted that the mode of their moment lets pass, in order. |
| FaultyLink.OnlyPassedSendsArrive | e2e/connection.e2e.ts:84-95 | The sends that arrive are exactly those attempted in pass mode on an open socket, in order. |
| FaultyLink.EachRefusalIsAnswered | e2e/connection.e2e.ts:89-94 | A page hears an order-preserving interleaving of its server and of exactly one error per refused send, with that send's rid. |
| FaultyLink.CutKeepsAway | e2e/connection.e2e.ts:76-88 | From a cut until the offline flag is cleared no socket connects, the cut socket stays closed and none reopens. |
| FaultyLink.OpenSocketsConnected | e2e/connection.e2e.ts:73-80 | Only sockets that connected are open. |
| ChatDelivery.SendsAreStoredOnce | apps/server/src/chat/service.ts:865-968 | A prepared send is answered with success and is in the transcript once if and only if it can be delivered, whatever else is there; a repeated one is found again, and one that cannot be delivered changes nothing. |
| ChatDelivery.DeliverableExactly | apps/server/src/chat/service.ts:886-934 | A message can be delivered if and only if it is at most 64 KiB of UTF-8 and is not for the Planner with nothing but summons in it. |
| Addressing.InstructionIsEmpty | packages/protocol/address.ts:15-44 | Taking the summons off a message leaves nothing if and only if every word of the message is the summons. |
| ChatDelivery.InvAlways | apps/web/src/chat/chat.tsx:517-580 | The invariant that links drafts, allocated ids, pending requests, answers and the transcript holds in every run of composer, link and server. |
| ChatDelivery.MessagesArriveExactlyOnce | e2e/conversation-initiative.e2e.ts:161-178 | In every run, whatever is lost, refused or delayed either way, no id is stored twice, each entry is what the server makes of the message its id was allocated for, and every cleared draft is stored exactly once. |
| ChatDelivery.DraftIsNeverLost | e2e/conversation-initiative.e2e.ts:279-294 | Words leave the composer only by an edit, or after they are in the transcript exactly once. |
| ChatDelivery.RetryKeepsId | apps/web/src/chat/references.ts:56-79 | Sending an unedited draft again reuses its id; sending after an edit uses an id that was never allocated. |
| ChatDelivery.OneRoundTripSuffices | apps/web/src/chat/chat.tsx:517-580 | From every reachable idle, connected state with words in the composer, one undisturbed round trip clears it and stores its message exactly once if the message fits and is not a bare summons for the Planner; otherwise words and id stay and the transcript is unchanged. |
| ChatDelivery.SummonsAloneIsRefused | apps/server/src/chat/service.ts:926-934 | The summons alone, written while the Planner is on, is prepared for the Planner and refused each time it is sent. |
| Replies.ReplyText | e2e/harness.e2e.ts:166-176 | The loop over an insertion-ordered map returns the join of the folded values in listing order. |
| Replies.FoldListsMentioned | e2e/harness.e2e.ts:166-176 | An id is listed if and only if an agent message or a delta mentions it. |
| Replies.FoldMeansLastMessageAndDeltas | e2e/harness.e2e.ts:166-176 | The value of each id is the text of its last agent message, empty if there is none, followed by all later deltas. |
| Replies.ListedByFirstAppearance | e2e/harness.e2e.ts:166-176 | Ids are listed once each, in the order of the frames that first mention them. |
| Replies.StreamingIsTransparent | e2e/harness.e2e.ts:166-176 | In any log a whole agent message can be replaced by an empty one and any chunking of its text without changing the fold. |
| ChatLog.Recorder.constructor | e2e/harness.e2e.ts:178-180 | A new recorder has no log and no connection. |
| ChatLog.Recorder.Routed | e2e/harness.e2e.ts:181-183 | Connections are numbered from one in the order they open. |
| ChatLog.Recorder.PageMessage | e2e/harness.e2e.ts:184 | Page messages are forwarded and not logged. |
| ChatLog.Recorder.ServerMessage | e2e/harness.e2e.ts:185-193 | Chat frames are logged with their position and connection; every server message is forwarded. |
| ChatLog.Recorder.Query | e2e/harness.e2e.ts:195-200 | The query returns the logged items of one kind, of all connections or of one. |
| ChatLog.ProxyIsTransparent | e2e/harness.e2e.ts:181-194 | In every run either side receives exactly what the other said, in order. |
| ChatLog.OrderIsPosition | e2e/harness.e2e.ts:188-189 | `order` is the position in the log and every item names an opened connection. |
| ChatLog.QueryIsComplete | e2e/harness.e2e.ts:181-200 | For a chat kind and a connection the query gives exactly the frames of that kind its server said, in order. |
| ChatLog.QueriesNest | e2e/harness.e2e.ts:195-200 | Narrowing the query over all connections to one gives the query of that connection. |
| ChatLog.QueriesOnlyGrow | e2e/harness.e2e.ts:195-200 | An earlier answer to a query is a prefix of every later one. |
| TurnStarts.Starts | e2e/conversation-initiative.e2e.ts:47-58 | The loop returns the values of the insertion-ordered map of first frames. |
| TurnStarts.StartsMeanFirstFrames | e2e/conversation-initiative.e2e.ts:47-58 | The result lists every turn that counts once, at its first busy frame not of Chopin and with that frame's time, in log order, and misses none. |
| TurnStarts.StartsAreStable | e2e/conversation-initiative.e2e.ts:47-58 | An earlier result is a prefix of every later one. |
| Deck.ReachedExactlyWhen | e2e/decision-deck-fixtures.ts:99-116 | The target comes up after exactly the expected clicks and not before, if and only if it lies ahead or the deck is at its last card and the target is the one before. |
| Deck.Alternates | e2e/decision-deck-fixtures.ts:99-116 | From the last card on the loop alternates between the last two cards for ever. |
| Deck.EasyDecks | e2e/decision-deck-fixtures.ts:99-116 | Every card is reachable from the first one, and from anywhere in a deck of at most two. |
| Deck.BringForward | e2e/decision-deck-fixtures.ts:99-116 | The retried loop shows the card if and only if it is reachable within the attempts, with exactly the expected clicks. |
| Judgment.AuthoringJudgment | e2e/authoring-judgments.ts:7-50 | All questions are answered or there is no result; which of the two holds is decided by whether every question can be answered, and each answer fits its passage and form. |
| Judgment.Probabilities | e2e/authoring-judgments.ts:34-43 | A choice with a `sequence` key and another gets a distribution that sums to one with `sequence` strictly ahead. |
| Judgment.SharesSumToOne | e2e/authoring-judgments.ts:34-43 | Over exact reals the shares of any choice with at least two distinct keys, one of them `sequence`, sum to one. |
| Judgment.SharesAreDistribution | e2e/authoring-judgments.ts:34-43 | Each key has its share, and every other share is strictly below that of `sequence`. |
| Judgment.SamePassageSameVerdict | e2e/authoring-judgments.ts:21-49 | Any two answers of one result to questions about one passage index give one verdict, whatever their letters and forms. |
| Outline.SlashPattern | e2e/focus-color.ts:1-6 | The slash pattern matches exactly the texts that end in a slash, a zero and a parenthesis. |
| Outline.CommaPattern | e2e/focus-color.ts:1-6 | The comma pattern matches exactly the rgba and hsla texts that end in a comma, a zero and a parenthesis, with no parenthesis between. |
| Outline.ZeroPatternMeansZero | e2e/focus-color.ts:1-6 | The zero pattern matches a canonical alpha of any length if and only if its value is zero. |
| Outline.CommaFormIsExact | e2e/focus-color.ts:1-6 | A comma-form colour in any layout and case is invisible if and only if its alpha is zero. |
| Outline.SlashFormIsExact | e2e/focus-color.ts:1-6 | A slash-form colour of any function, layout and case is invisible if and only if its alpha is zero. |
| Outline.LayoutDoesNotMatter | e2e/focus-color.ts:1-6 | Blanks anywhere and letter case never change the answer. |
| Lifecycle.FoldRun | apps/server/src/tasks/lifecycle.ts:422-430 | The loop that stops at the first refused event computes the fold of the whole log. |
| Lifecycle.ComputeDeliveryPhase | apps/server/src/tasks/lifecycle.ts:214-224 | The loop over a map of last states per address computes the delivery phase. |
| LifecycleLogs.LogsAreOk | apps/server/src/tasks/lifecycle.ts:234-430 | After every accepted log the progress lists the tasks in order, tasks sharing a merged pull request agree on it, and a reviewed or settled run has every task done. |
| LifecycleLogs.ReviewRefusalMeans | apps/server/src/tasks/lifecycle.ts:276-289 | A review is possible if and only if every task is done and every pull request is the repository's own and not closed. |
| LifecycleLogs.DeliveredMeansAllMerged | apps/server/src/tasks/lifecycle.ts:214-224 | After every accepted log a reviewed or settled run is delivered if and only if it has a pull request and all of them are merged, although only the last state per address is compared. |
| LifecycleOrder.DependenciesWereDone | apps/server/src/tasks/lifecycle.ts:318-335 | After every accepted log, live or not and with failed reviews, whatever a task that is under way or done depends on was done at some earlier moment of the log, which is returned. |
| LifecycleOrder.OrderHoldsExactly | apps/server/src/tasks/lifecycle.ts:276-335 | After every accepted log no task is under way or done before its dependencies are done, if and only if no such dependency was reopened by a failed review and is not done again. |
| LifecycleOrder.OrderIsRespected | apps/server/src/tasks/lifecycle.ts:318-335 | Without a failed review dependency order always holds. |
| LostOrder.ReviewBreaksOrder | apps/server/src/tasks/lifecycle.ts:276-316 | A concrete log of two tasks after which order does not hold: a review reopens the first while the second, which depends on it, stays done. |
| LifecycleLogs.MergedIsPermanent | apps/server/src/tasks/lifecycle.ts:234-410 | Through every accepted event a merged pull request stays merged for as long as its task keeps it. |
| LifecycleReplay.OwnedGrowsByOne | apps/server/src/tasks/lifecycle.ts:811-876 | An accepted transition adds exactly one event, under a new key, to what the plan owns, archived runs included. |
| LifecycleReplay.OwnedIsReplayed | apps/server/src/tasks/lifecycle.ts:741-785 | A report the plan owns is replayed without a change; its key with other contents is refused. |
| LifecyclePlans.ReviseKeepsPlanOk | apps/server/src/tasks/graphs.ts:452-497 | Revising keeps a plan restorable. |
| LifecyclePlans.ApproveKeepsPlanOk | apps/server/src/tasks/graphs.ts:520-541 | Approving keeps a plan restorable. |
| LifecyclePlans.ClaimKeepsPlanOk | apps/server/src/tasks/graphs.ts:322-342 | Claiming keeps a plan restorable. |
| LifecyclePlans.TellKeepsPlanOk | apps/server/src/tasks/lifecycle.ts:811-876 | A report keeps a plan restorable unless it releases a live log that does not fold as one. |
| LifecycleSafety.AcceptedReportsAreAppliedOnce | apps/server/src/tasks/lifecycle.ts:741-785 | In every life of a plan with fresh build ids an accepted report that is sent again, at any later point and past stops, resumes and rebuilds, is answered as a replay and changes nothing; its key with other contents is refused. |
| LifecycleQuiet.QuietLogsFoldLive | apps/server/src/tasks/lifecycle.ts:412-430 | A plainly accepted log folds as a live one if and only if after all tasks were first done nothing followed but reports of the tasks' own pull requests. |
| LifecycleQuiet.ReleasesLiveExactly | apps/server/src/tasks/lifecycle.ts:787-876 | A report ends its run as a live one if and only if it is live, is new to the active run, and is accepted by the plain fold with every task done afterwards: all of it can be checked beforehand. |
| LifecycleQuiet.UnfoldableExactlyWhenNotQuiet | apps/server/src/tasks/lifecycle.ts:787-804 | A live release archives a log that cannot be folded again if and only if that log is not quiet. |
| LifecycleQuiet.ReportKeepsRestorable | apps/server/src/tasks/lifecycle.ts:628-682 | A report leaves a restorable plan restorable if and only if it is not a live release of a log that is not quiet. |
| LifecycleStops.StopKeepsRestorable | apps/server/src/tasks/builds.ts:646-692 | Stopping a build leaves a restorable plan restorable if and only if it does not archive a log that is not quiet. |
| LifecycleOutcomes.OutcomeCompletes | apps/server/src/tasks/builds.ts:723-760 | The events of an outcome are accepted and complete their run if and only if every other task is done and this one may start, may report its pull request and has a summary. |
| LifecycleResumes.FinishesExactly | apps/server/src/tasks/lifecycle.ts:899-923 | A resume drops the revision request if and only if the document was edited since, the run is live and was returned, the outcome completes it as above, and its keys are new. |
| LifecycleResumes.ResumeKeepsRestorable | apps/server/src/tasks/lifecycle.ts:899-923 | Resuming a task of a stopped run leaves a restorable plan restorable if and only if it does not finish a run whose version another run has implemented, by guards that can be checked beforehand. |
| LifecycleRebuilds.RebuildFoldsExactly | apps/server/src/tasks/builds.ts:966-994 | The log of a rebuild folds as a live one if and only if each of its pull requests is an address of exactly the repository, and then reads as implemented. |
| LifecycleRebuilds.RebuildKeepsRestorable | apps/server/src/tasks/builds.ts:912-994 | Landing a rebuild leaves a restorable plan restorable if and only if its pull requests are spelled exactly, the document it built is not older than that of the latest version, and its id and keys are new. |
| LifecycleSafety.StepKeepsRestorable | apps/server/src/tasks/lifecycle.ts:628-682 | Each of the eight kinds of step leaves a restorable plan restorable if and only if it is none of these four. |
| LifecycleSafety.LifeRestoresExactly | apps/server/src/tasks/lifecycle.ts:628-682 | In every life of a plan, whatever is edited, revised, approved, claimed, reported, stopped, resumed and rebuilt, the stored graph, run and lifecycle restore at every moment if and only if none of these four steps occurs. |
| LifecycleSafety.EveryLiveLifeRestores | apps/server/src/tasks/lifecycle.ts:787-876 | When every report is live no release and no stop archives an unreadable log: such a life restores unless a resume or a rebuild loses it. |
| LifecycleSafety.LiveRunsStay | apps/server/src/tasks/builds.ts:160-168 | A run archived as a live one stays archived as one in every life, so the record of a live document keeps naming it. |
| LostPlan.MixedReportsLoseThePlan | apps/server/src/tasks/lifecycle.ts:787-876 | A concrete life with one task: it restores before its last report, which is live, and not after it. |
| LostPlan.StopLosesThePlan | apps/server/src/tasks/builds.ts:646-692 | A concrete life without a live report: it restores after a failed review and not after the build is stopped. |
| LostPlan.OtherCaseLosesThePlan | apps/server/src/tasks/builds.ts:912-919 | A concrete life: live reports release the run, the document is edited, and a rebuild that spells the delivered address in another case is let through and cannot be restored. |
| LostPlan.OlderTargetLosesThePlan | apps/server/src/tasks/builds.ts:953-994 | A concrete life: a version of a later document is approved while a rebuild of an earlier one runs, and the plan cannot be restored once it lands. |
| LostResume.ResumeLosesThePlan | apps/server/src/tasks/lifecycle.ts:899-923 | A concrete life: a build is stopped, a second run implements the version, the document is edited, and a rebuild that finishes the stopped run cannot be restored. |
| LiveRecord.ChangeKeepsRestorable | apps/server/src/tasks/builds.ts:148-180 | An edit, a queued, failed or landed rebuild or a settled edit leaves a readable record readable if and only if it is none of three changes. |
| LiveRecord.RecordRestoresExactly | apps/server/src/tasks/builds.ts:148-180 | In every life the record of a live document can be read back at every moment if and only if no rebuild reports a commit on a known pull request in another spelling or opens a hundred and first one, and no edit is settled past the sealed target of a failed rebuild. |
| LiveRecord.SettledPastTheTarget | apps/server/src/tasks/builds.ts:432-466 | A concrete life: a rebuild fails, the document is edited again, that edit is judged to need no code, and the record cannot be read back. |
| LiveRecord.MisspeltCommit | apps/server/src/tasks/builds.ts:899-1019 | A concrete life for any pull request and any other spelling of it: a rebuild reports a commit on it, and the record cannot be read back. |
| BuildSeed.BuildTask | e2e/build-seed.ts:62-90 | The loop body throws for distinct ids only if a dependency is not done or a declared reason is blank, and otherwise leaves the run at exactly the next task. |
| BuildSeed.BuiltBuild | e2e/build-seed.ts:29-112 | The build never throws if and only if task ids are distinct and not blank, dependencies come first and declared reasons are given; then the version is approved again and one run is archived whose log is the whole command stream. |
| BuildSeed.PullUrlIsOwn | e2e/build-seed.ts:79-85 | Every reported address is a pull request of the seeded repository. |
| BuildSeed.SeededReportIsValid | e2e/build-seed.ts:92-101 | The final report is valid if and only if the task ids are distinct and not blank. |
| BuildSeed.StartReduces | e2e/build-seed.ts:63 | A start is accepted if and only if everything the task depends on is an earlier task. |
| BuildSeed.StreamConforms | e2e/build-seed.ts:62-101 | In the stream of any tasks with distinct ids any two commands, the review included, have different keys and report different addresses; no task is started or completed twice. |
| BuildSeed.DependenciesComeFirst | e2e/build-seed.ts:62-91 | Every start comes after the completion of each task it depends on. |

## Left out

- Chat references, focus and withdrawals, and the `/research` command: a message is its text and destination. A message with references can be delivered where the same text without them cannot.
- Servers that do not acknowledge sends: the composer of `ChatDelivery` waits for its answer.
- Text of a request body beside the fields the replies depend on: avatars, pull request summaries, member lists and expiry times are constants.
- URL, form and JSON syntax: a request carries its parsed URL and form, a socket message its parsed frame. A text message that is not JSON is not modelled.
- Clocks, file reads, UUIDs and the network: times, the approval file and fresh ids are parameters of a step; a forwarded request has no reply here.
- UTF-16: texts are sequences of characters, and characters outside the basic plane count as one.
- Floating point: `Judgment` computes with exact reals.
- Wide numerals: revisions and counters are unbounded naturals, so a revision past 2^53 is not rounded.
- Browser behaviour behind `bringForward`: the deck is a position and two buttons, the timeout a number of attempts; with one card both buttons are disabled and a click does nothing.
- The stored model of a question: `Seeded` takes the function that makes it as a parameter.
- Keys an object inherits: `noChange` and answers are maps, so task ids such as `constructor` are not special.
- Unknown event kinds and wrongly typed fields in a stored log: `StoredEvent` checks the fields a typed event has.
- The other text fields of a run (user, client, session, branch, commit, start time): never empty in these runs.
- The operations of `Graphs.revise` and the cycle check of `validate`: `Revise` takes the revised definition; only that no id is blank matters to restoring.
- The owner, checkout, sources and build list of a live record, and the states of builds: they decide whether a stop, a resume or a rebuild is started at all. `Stop` may happen to every run, `Resume` once the document was edited, `Rebuild` once some run went live and the document was edited, so the lives here include all lives of the product.
- Requests that start a build, beyond the claim they make.
- One write for a whole rebuild: the tasks it resumes and the version it adds are steps of their own here, so there are moments between them.
- `ChatLog` has no event for a closed socket: it holds no state of one, and a closed socket sends nothing more.
- `failedBuild` and `deckSeed`: constant records.
- PostgreSQL seeding, process control and screen assertions: no state of their own to reason about.
- LifecycleSafety.LifeRestoresExactly: not every life restores; the condition names the four steps that lose a plan, and `LostPlan` and `LostResume` hold lives that meet it.
- LifecycleSafety.AcceptedReportsAreAppliedOnce: assumes that the id of a rebuild, a UUID, is new to the plan and so are the keys made from it.
- LifecycleRebuilds.RebuildKeepsRestorable: the number of newly opened pull requests a rebuild may bring is checked in `LiveRecord` and not there.
- LostPlan.OlderTargetLosesThePlan: approves through the graph service (`graphs.ts:499`) while a rebuild runs; the one route that approves, starting a build, waits for the rebuild.
- LiveRecord.RecordRestoresExactly: `toLowerCase` is taken on ASCII letters, and the record and the plan are two machines, joined by `LiveRunsStay` only.
- GitHubListings.ListedPermissions: the listing overstates pull in exactly one case, a revoked handle's first read of a score that cannot be pulled, so the bound is stated with that exception.
- DeviceGrant.LedgerHolds: assumes fresh, non-empty UUIDs, because a repeated one loses a code (`RepeatedCodeIsLost`).
- BuildSeed.BuiltBuild: the run id is not blank, as the UUID it is taken from never is.
