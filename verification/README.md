# RepoRecon relay core, modelled in Dafny

RepoRecon is a voice assistant backend: a websocket endpoint relays a
browser's microphone audio to a hosted live model session, relays the
model's audio back, and runs two small tools (an issue scout and a
placeholder issue analysis) when the model asks for them. Around the I/O
plumbing sit four sequential decision procedures, modelled here as pure
functions over finite sequences:

- `ClientReceive` — the client-to-upstream loop (`receive_from_client`): a
  fold of the browser's frames into the sends made on the live session,
  tracking whether an utterance is open, and ending with a shutdown reason on
  disconnect or on a fatal error.
- `Shutdown` — the per-connection shutdown latch (`initiate_shutdown`): a
  single-assignment reason slot where the first trigger wins and cancels the
  sibling loops, plus the "internal task completion" fallback and the reason
  reported at close.
- `SendToClient` — the upstream-to-client loop (`send_to_client`): tool-call
  dispatch (one notification per call, one response per call, one batch) and
  audio forwarding, over an abstract registry of tools and an abstract
  sequence of live-session messages.
- `Tools` — `scout_github_issues` (drop pull requests, keep the first three,
  number them, or report "no issues" / the access failure) over an abstract
  issue feed, and `analyze_issue_code`.

`Wrappers` (an `Option` type and bytes) and `Text` (`str.join`, decimal
rendering of integers with its round trip, substring search) are support.

Behaviour of the code that the model keeps:
- A text frame holding valid JSON that is not an object (a list, a string, a
  number) makes `payload.get` raise (backend/main.py:142); the loop's
  catch-all handler (backend/main.py:151-152) then ends the loop with "client
  receive fatal error", without sending end-of-turn for an open utterance.
  `ClientReceive.StepFrame` models this, and `ClientReceive.StopReason`
  states it.
- The code executes tools itself (it intercepts tool-call messages and
  answers them), although a comment on the session configuration says the
  SDK executes them. The model follows the interception code.
- Audio sent upstream is tagged `audio/pcm;rate=24000`, the code's constant.

## Model

| member | source | states |
|---|---|---|
| `ClientReceive.FinalizeTurn` | backend/main.py:93-101 | closing an utterance sends exactly one end-of-turn when one is open and nothing otherwise; afterwards no utterance is open |
| `ClientReceive.FinalizeIdempotent` | backend/main.py:95-101 | finalizing a second time sends nothing and leaves the state closed |
| `ClientReceive.NeutralIffIgnorable` | backend/main.py:113-145 | a frame leaves the loop unchanged (no send, no shutdown, same utterance flag, whatever that flag is) exactly when it is a non-receive event, an empty frame, non-JSON text, or a JSON object whose type is not end_turn |
| `ClientReceive.AudioFrameForwarded` | backend/main.py:120-130 | a binary frame opens the utterance if none is open and is forwarded as exactly one raw-PCM send with end_of_turn false |
| `ClientReceive.EndTurnFinalizes` | backend/main.py:142-143 | an end_turn message closes an open utterance with exactly one end-of-turn send, and is a no-op when none is open |
| `ClientReceive.DisconnectFinalizesThenStops` | backend/main.py:108-148 | a disconnect, as an event or as a raised exception, first finalizes any open utterance and then stops the loop with "client websocket close" |
| `ClientReceive.RunFrames` | backend/main.py:103-152 | the loop reads every frame while it runs, a stopped loop has read at least one frame, and it only ever stops with "client websocket close" or "client receive fatal error" |
| `ClientReceive.StopsAtFirstTrigger` | backend/main.py:104-152 | the loop stops at the first frame that triggers shutdown, with that frame's reason; no earlier frame, and no frame of a loop still running, triggers shutdown |
| `ClientReceive.StopIsStateFree` | backend/main.py:108-152 | whether a frame stops the loop, and with which reason, does not depend on whether an utterance is open |
| `ClientReceive.StopReason` | backend/main.py:108-152 | a frame stops the loop with "client websocket close" exactly when it is a disconnect, and with "client receive fatal error" exactly when the receive failed or the payload is not a JSON object |
| `ClientReceive.ClientCloseIffDisconnect` | backend/main.py:104-148 | a loop stops with "client websocket close" exactly when the frame it stopped at is a disconnect |
| `ClientReceive.StopIgnoresLaterFrames` | backend/main.py:104-111 | once the loop has stopped, frames that follow are never processed |
| `ClientReceive.AudioForwardedInOrder` | backend/main.py:117-130 | the audio sent upstream is exactly the data of the binary frames read, verbatim and in the order received |
| `ClientReceive.RunIsBracketed` | backend/main.py:91-130 | the sends replay as a well-bracketed utterance sequence: end-of-turn is only sent while an utterance is open, at most one is open, the replay ends in the loop's flag, and every audio send is non-final raw PCM |
| `ClientReceive.ThreeChunksThenEndTurn` | backend/main.py:120-143 | three audio frames then end_turn give three non-final audio sends followed by exactly one end-of-turn |
| `Shutdown.Siblings` | backend/main.py:85 | the sibling list holds each task already created exactly once, receive task first and send task last |
| `Shutdown.CancelTargets` | backend/main.py:86-88 | the cancelled tasks are exactly the siblings that are neither the calling task nor already done |
| `Shutdown.InitiateShutdown` | backend/main.py:73-88 | the first call records its reason in both reason slots and cancels the live siblings other than the caller; once a reason is recorded a call changes nothing and cancels nothing |
| `Shutdown.NeverCancelsCaller` | backend/main.py:87 | the calling task is never among those cancelled |
| `Shutdown.LatchedIsFinal` | backend/main.py:75-77 | after a reason is recorded, any sequence of further calls, whatever their reasons, is a no-op |
| `Shutdown.FirstTriggerWins` | backend/main.py:73-88 | over a whole sequence of calls, the outcome (reason and cancellations) is that of the first call alone |
| `Shutdown.RunFromOpenedRecordsFirst` | backend/main.py:68-79 | from the open state, the recorded reason is the first real reason among the calls, and stays "unknown" when there is none |
| `Shutdown.Settle` | backend/main.py:299-301 | a reason still "unknown" after both loops settle becomes "internal task completion"; a recorded reason is kept |
| `Shutdown.CloseReasonIsFirstTrigger` | backend/main.py:299-310 | the reason reported at close is "not established" if the session never opened, else the first trigger's reason, else "internal task completion"; never "unknown" |
| `Shutdown.FirstLoopReasonReported` | backend/main.py:73-79 | when every call passes one of the loops' reasons, the connection closes with the reason of the first call |
| `SendToClient.Respond` | backend/main.py:203-226 | a response carries the call's name and id, with the tool's result, the raised exception's message, or "Unknown tool: <name>" for an unregistered name |
| `SendToClient.DispatchCalls` | backend/main.py:182-226 | the dispatch yields one response per call, in call order, each being that call's response |
| `SendToClient.OneBatchOneResponsePerCall` | backend/main.py:183-230 | the responses go upstream as one batch at the end, sent if and only if there was at least one call, with each call's name and id in call order |
| `SendToClient.NotifiedBeforeRun` | backend/main.py:195-207 | every tool run is of a registered tool and is immediately preceded by the tool_execution notification with the same name and arguments |
| `SendToClient.OneNotificationPerCall` | backend/main.py:184-200 | exactly one notification is sent per call, known or unknown, with its name and arguments, in call order |
| `SendToClient.ForwardParts` | backend/main.py:284-287 | only non-empty inline audio is forwarded to the browser |
| `SendToClient.RunMessages` | backend/main.py:155-292 | the loop stops with "Gemini stream close" exactly when the stream closed and no message raised, and with "Gemini API fatal error" otherwise |
| `SendToClient.AudioForwardedInOrder` | backend/main.py:259-287 | the browser receives exactly the non-empty inline audio of the handled messages, verbatim and in order, and nothing else as audio |
| `SendToClient.AvailableTools` | backend/main.py:32-35 | the registry holds exactly the two tools |
| `SendToClient.UnknownToolAnswered` | backend/main.py:220-226 | a call naming neither tool is answered with an error that contains the name |
| `SendToClient.RaisingToolAnswered` | backend/main.py:213-219 | a tool that raises is answered with an error carrying the exception's message |
| `SendToClient.AnalyzeScenario` | backend/tools.py:44-53 | analyze_issue_code called through a tool call with repo "a/b" and issue 42 is answered with a result containing "a/b" and "42" |
| `Tools.ScoutGithubIssues` | backend/tools.py:4-42 | the issue-by-issue walk with its early stop gives the summary stated over the whole feed |
| `Tools.NonPullRequestsExact` | backend/tools.py:23-26 | an issue contributes a target exactly when it is not a pull request |
| `Tools.TargetsAreFirstNonPullRequests` | backend/tools.py:22-28 | the targets are the first min(3, n) non-pull-request issues in feed order, and no pull request is listed |
| `Tools.StopsAtThirdTarget` | backend/tools.py:27-28 | once three targets are found, later issues and a later failure of the listing change nothing |
| `Tools.NoTargetsMessage` | backend/tools.py:30-33 | a feed with only pull requests and no failure gives exactly "No open issues found in {repo_name}." |
| `Tools.FailureMessage` | backend/tools.py:39-42 | a failure before the third target gives exactly the "Recon failed" message with the error details, instead of raising |
| `Tools.SummaryListsNumberedTargets` | backend/tools.py:19-37 | a successful summary contains the header naming the repository and the line "Target k: Issue #n - title" of the k-th target |
| `Tools.AnalyzeIssueCode` | backend/tools.py:44-53 | the analysis text contains both the repository name and the issue number |
| `Text.NatToStringRoundTrip` | backend/tools.py:25 | the decimal rendering used for target positions and issue numbers reads back to the same number |

## Left out

- The web application setup: FastAPI app, CORS middleware, the `/` liveness route, `load_dotenv` and environment reads (configuration and I/O only).
- The live-session SDK: client creation, `LIVE_CONFIG`, `live.connect` and the `session.receive()` iteration. The session is an input sequence of messages plus how the stream ended; whether it opened at all is the `connected` flag of `Shutdown.CloseReason`.
- asyncio scheduling: `create_task`, `gather`, `to_thread`, the lock and the re-raise of `CancelledError`. The latch is a sequential fold over the calls made to it; which tasks it cancels is recorded, but what cancellation does to the cancelled loop is not modelled.
- The field probing and `print` logging of `send_to_client` (backend/main.py:157-178, 232-282) and every other `print`; the `error=` argument of `initiate_shutdown` is only printed and is dropped.
- The issue-tracking service (`Github`, `get_repo`, `get_issues`): the scout receives the issues the listing would yield and the failure it would raise after them; a repository that cannot be opened is a feed with no issues and a failure.
- Failures of the transports' own sends (`websocket.send_text`, `websocket.send_bytes`, `session.send`, `session.send_tool_response`): the model assumes these sends succeed. In the code, a failed send inside a loop's `try` body ends that loop through its catch-all handler with the loop's fatal reason. The end-of-turn send that `finalize_turn` makes inside the `except WebSocketDisconnect` handler (backend/main.py:146-147) is not covered by the sibling `except Exception` (backend/main.py:151): if it fails, the receive loop ends with that exception without calling `initiate_shutdown`, and the reason reported at close is then the other loop's or the "internal task completion" fallback.
- `json.dumps` of the notification: a notification carries the tool's name and arguments, not their JSON text.
- SDK fields that may be `None` (a call's name, id or args) are assumed present; a JSON `type` member that is not a string is represented as absent, which compares unequal to "end_turn" just as the code's comparison does.
- Tool arguments are strings or integers; floating-point argument values are not modelled.
- SendToClient.SignatureMismatch: a call whose arguments do not bind to a tool's parameters raises `TypeError` in the code; the model raises with a fixed stand-in message instead of CPython's exact wording.
