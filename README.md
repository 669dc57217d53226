# wecom-home-ops, modelled in Dafny

wecom-home-ops is a WeCom (WeChat Work) self-built application. It lets a whitelisted
household member restart, stop or force-update Docker containers on an Unraid server
from a chat window. This project models the program's core and proves properties of
the model:

- **The encrypted callback** (`internal/wecom`):
  - signature check: SHA-1 over the sorted token, timestamp, nonce and ciphertext;
  - AES-CBC envelope with PKCS#7 padding and the `random(16) ‖ len(4) ‖ msg ‖ receiverId` frame;
  - the URL-verification handshake and the message handler with its body limit;
  - de-duplication keys and the TTL de-duplicator;
  - the API client with its cached access token.
- **The conversation** (`internal/core`):
  - the per-user state store with its TTL;
  - container-name validation;
  - the router. It walks a user from the action card, through the container-name
    prompt and the confirm card, to exactly one call into the Unraid back end.
- **The Unraid back end** (`internal/unraid`):
  - container lookup by name;
  - GraphQL type rendering;
  - the choice of the force-update mutation and its id argument.
- **Configuration** (`internal/config`): log-level parsing, defaults and validation.
- **Start-up report** (`cmd/wecom-home-ops/main.go`): its pure helpers.

Modelling choices:

- Time is an integer number of nanoseconds. Strings are `seq<char>`. Bytes are `Byte`
  (0..255).
- AES-CBC, SHA-1, SHA-256 and base64 are function-valued fields of `Crypto.Primitives`.
  The inverse laws they obey are stated by the predicate `Crypto.Lawful`, which the
  round-trip lemmas require.
- XML decoding, URL joining and the HTTP exchanges with WeCom and Unraid are parameters.
- Objects whose fields the program updates in place are classes:
  - `State.StateStore`
  - `Dedup.Deduper`
  - `WeComClient.Client`
  - `Router.Router`

  Each method is proved against a function of the old state (`GetStep`,
  `SeenOrMarkStep`, `TokenStep`, `SendStep`, `TextStep`/`EventStep`). The lemmas are
  stated over those functions.

## Model

| member | source | states |
|---|---|---|
| Crypto.NewCrypto | internal/wecom/crypto.go:29-47 | construction succeeds exactly when token, key and receiver id are all non-empty and the key plus "=" decodes to 32 bytes; the crypto keeps that token and receiver id and a valid AES key |
| Crypto.SignatureOrderInsensitive | internal/wecom/crypto.go:54-59 | the signature depends only on the multiset of its four inputs, because they are sorted before hashing |
| Crypto.VerifySignatureOrderInsensitive | internal/wecom/crypto.go:49-58 | verification accepts the same request whatever order timestamp, nonce and ciphertext are given in |
| Crypto.Signature | internal/wecom/crypto.go:54-59 | the SHA-1 hex digest of the token, timestamp, nonce and ciphertext sorted and concatenated |
| Crypto.VerifySignature | internal/wecom/crypto.go:49-52 | accepts exactly when the presented signature equals the one recomputed with the crypto's token |
| Crypto.Pkcs7Pad | internal/wecom/crypto.go:136-140 | 1 to 32 bytes are appended, each equal to their count, and the result is a multiple of 32; a block-aligned input gains a whole block |
| Crypto.Pkcs7Unpadded | internal/wecom/crypto.go:142-155 | a successful unpad returns a strict prefix of its input (the error cases are pinned by UnpadPad and PadUnpad) |
| Crypto.Pkcs7Unpad | internal/wecom/crypto.go:142-155 | the loop over the pad bytes returns what `Pkcs7Unpadded` specifies |
| Crypto.UnpadPad | internal/wecom/crypto.go:136-155 | unpadding a padded message gives the message back |
| Crypto.PadUnpad | internal/wecom/crypto.go:136-155 | any input that unpads is the padding of what it unpads to |
| Crypto.BigEndian32 | internal/wecom/crypto.go:110-111 | the length field is four bytes wide |
| Crypto.ReadBigEndian32 | internal/wecom/crypto.go:91 | reading four bytes gives a value below 2^32 |
| Crypto.ReadBigEndian32OfBigEndian32 | internal/wecom/crypto.go:110-111 | reading back a written length below 2^32 gives the length |
| Crypto.ReadBigEndian32Injective | internal/wecom/crypto.go:91 | writing back a length that was read gives the same four bytes, so distinct fields read as distinct lengths |
| Crypto.ParseFrame | internal/wecom/crypto.go:87-102 | a parsed message is the body of a frame for this receiver id: 16 random bytes, its length, the message, then the receiver id; a refusal is one of too short, length out of range, receiver id mismatch |
| Crypto.ParseFrameOfFrame | internal/wecom/crypto.go:87-118 | parsing the frame the encrypter builds gives the message back |
| Crypto.ParseFrameOtherReceiver | internal/wecom/crypto.go:96-100 | a frame built for another receiver id is refused |
| Crypto.OpenEnvelope | internal/wecom/crypto.go:61-85 | a base64 failure and a ciphertext that is not a multiple of 16 bytes are refused with their own errors; an opened payload is what AES-CBC decryption gives, minus its padding |
| Crypto.Decrypt | internal/wecom/crypto.go:61-103 | an envelope error is passed on; a decrypted message is the body of a frame addressed to this receiver id |
| Crypto.Encrypt | internal/wecom/crypto.go:105-134 | encryption fails exactly when random16 is not 16 bytes or the key is not a valid AES key |
| Crypto.DecryptEncrypt | internal/wecom/crypto.go:61-134 | with lawful primitives and a valid key, decrypting what was encrypted gives the message back (message shorter than 2^32 bytes) |
| Crypto.DecryptForeignReceiver | internal/wecom/crypto.go:96-100 | a message encrypted for another receiver id never decrypts |
| Crypto.MsgLenWrapPanics | internal/wecom/crypto.go:91-96 | as written, 16 zero bytes followed by the length field 0xFFFFFFFF pass the bounds guard and reach a slice whose low bound exceeds its high bound; the corrected parser refuses the frame as length out of range |
| Crypto.ParseFrameAgreesWithoutWrap | internal/wecom/crypto.go:91-96 | whenever the length field is below 2^32 - 20 (or the frame is too short to have one) the as-written parser and the corrected one agree |
| Callback.Status | internal/wecom/callback.go:94-153 | every refusal is answered 400, 403 or 413: 403 exactly for a bad signature or a failed decryption, 413 exactly for an over-long body |
| Callback.EffectiveLimit | internal/wecom/callback.go:80-83 | the body limit is always positive, and a positive configured limit is used as it is (zero or less falls back to 1 MiB) |
| Callback.Open | internal/wecom/callback.go:123-145 | an opened message passed the signature check on the trimmed query fields and is what decryption gives; a refusal is a bad signature, or a failed decryption after a good signature |
| Callback.OpenSucceedsIff | internal/wecom/callback.go:123-145 | opening succeeds exactly when the signature verifies and the ciphertext decrypts; a bad signature is always the reason given when it fails |
| Callback.OpenOfEncrypted | internal/wecom/callback.go:123-145 | with lawful primitives, a ciphertext from the encrypter carrying the matching signature opens to its plaintext |
| Callback.Unwrap | internal/wecom/callback.go:105-155 | a refusal is one of bad XML, missing Encrypt, bad signature, failed decryption; an accepted message is what the plaintext decodes to |
| Callback.Receive | internal/wecom/callback.go:80-155 | a refused request gets a rejection; an accepted message is what its plaintext decodes to |
| Callback.BodyLimit | internal/wecom/callback.go:80-103 | a body over the effective limit is refused as too large, a failed read as a bad request, and any other body goes on to the envelope checks |
| Callback.ReadBodyNotRefusedForSize | internal/wecom/callback.go:86-103 | a body read whole within the limit is never refused as too large or as a bad request |
| Callback.RejectionReasons | internal/wecom/callback.go:105-155 | in order: bad envelope XML, then a blank Encrypt, then the open's own refusal, then bad inner XML are refused; otherwise the decoded message and its plaintext are accepted |
| Callback.AcceptedIsAuthentic | internal/wecom/callback.go:105-155 | an accepted message came from a body within the limit, whose trimmed Encrypt is non-empty, verifies against the query signature, and decrypts to the plaintext it was decoded from |
| Callback.DedupeKey | internal/wecom/callback.go:209-222 | the key is empty exactly when the trimmed task id and message id are both empty and there is no plaintext |
| Callback.TaskKey | internal/wecom/callback.go:211-213 | a task key is "task:" followed by the sender, ":" and its task id |
| Callback.MsgKey | internal/wecom/callback.go:214-216 | a message key is "msg:" followed by the sender, ":" and its message id |
| Callback.DigestKey | internal/wecom/callback.go:217-220 | a digest key is "sha256:" followed by the hex digest of the plaintext |
| Callback.TaskIdTakesPrecedence | internal/wecom/callback.go:210-213 | two messages whose trimmed task ids agree and are non-blank, from the same trimmed sender, get the same key whatever their message ids and plaintext |
| Callback.MsgIdBeforeDigest | internal/wecom/callback.go:210-216 | without task ids, two messages whose trimmed message ids agree and are non-blank, from the same trimmed sender, get the same key whatever their plaintext |
| Callback.TaskKeysDistinguishTasks | internal/wecom/callback.go:210-213 | two task keys are equal only for the same trimmed sender and task id (senders holding no ":") |
| Callback.MsgKeysDistinguishMessages | internal/wecom/callback.go:210-216 | without task ids, two message keys are equal only for the same trimmed sender and message id (senders holding no ":"), so a new message is never taken for a repeat |
| Callback.KeyKind | internal/wecom/callback.go:209-222 | a key starts with "t" exactly when there is a task id, and with "m" exactly when there is a message id but no task id |
| Callback.KeyKindsDisjoint | internal/wecom/callback.go:209-222 | equal keys come from messages of the same kind: both with a task id, or both with a message id, or both with neither |
| Callback.CallbackStep | internal/wecom/callback.go:173-205 | whenever the core is called the answer is success, and without a de-duplicator no marks are kept |
| Callback.RejectedNeverReachesCore | internal/wecom/callback.go:86-155 | a refused request gets its rejection, never reaches the core and leaves the de-duplicator as it was |
| Callback.HandledWasAccepted | internal/wecom/callback.go:147-191 | whatever reaches the core is the message the checks accepted |
| Callback.NoDeduperDeliversAll | internal/wecom/callback.go:173-205 | without a de-duplicator every accepted message is answered success and delivered |
| Callback.LiveKeyIsDropped | internal/wecom/callback.go:173-188 | a message whose key is marked and not expired is answered success, not delivered, and the marks stay as they were |
| Callback.RedeliveryWithinTtlIsDropped | internal/wecom/callback.go:173-188 | a delivered message received again at most one TTL later is answered success and not delivered |
| Callback.OpenedMessageIsDelivered | internal/wecom/callback.go:105-205 | a body within the limit whose envelope opens to a well-formed message is answered success and delivered |
| Callback.SignedEncryptedMessageIsDelivered | internal/wecom/callback.go:105-205 | with lawful primitives, a body carrying a ciphertext from the encrypter with the matching signature is answered success and its message delivered |
| Callback.Serve | internal/wecom/callback.go:74-206 | the handler method answers and calls the core as `CallbackStep` says, and leaves the de-duplicator holding the new marks |
| Callback.VerifyStep | internal/wecom/callback.go:32-72 | URL verification answers the plaintext or refuses with a bad signature or a failed decryption; an echo is what the trimmed echostr decrypts to |
| Callback.VerifyEchoesPlaintext | internal/wecom/callback.go:39-71 | with lawful primitives, an echostr from the encrypter with the matching signature is answered with its plaintext |
| Callback.VerifyRefusesBadSignature | internal/wecom/callback.go:39-48 | a signature that does not verify is refused as a bad signature |
| Dedup.SeenOrMarkStep | internal/wecom/deduper_test.go:9-38 | the empty key is never seen and changes nothing; a key is reported seen only when it is marked, and then nothing changes; a new or expired key is marked with expiry now + TTL |
| Dedup.Unexpired | internal/wecom/deduper_test.go:59-78 | pruning keeps exactly the entries not yet expired, with their expiries |
| Dedup.Deduper.constructor | internal/wecom/deduper_test.go:49-57 | a TTL of zero or less falls back to 10 minutes; the table starts empty |
| Dedup.Deduper.SeenOrMark | internal/wecom/deduper_test.go:9-38 | the method answers and updates the table as `SeenOrMarkStep` says |
| Dedup.Deduper.PruneExpired | internal/wecom/deduper_test.go:59-78 | the table keeps exactly its unexpired entries |
| Dedup.SeenOrMarkOrNil | internal/wecom/deduper_test.go:40-47 | a nil de-duplicator never reports a key seen; otherwise the call is `SeenOrMark` |
| Dedup.Answers | internal/wecom/deduper_test.go:80-108 | repeated calls with one key give one answer per call |
| Dedup.AllSeenWhileLive | internal/wecom/deduper_test.go:15-20 | while a marked key has not expired, every call reports it seen |
| Dedup.OneWinnerWithinTtl | internal/wecom/deduper_test.go:80-108 | of calls with one new key within one TTL of the first, exactly the first reports it new |
| Dedup.ExpiredKeyIsNew | internal/wecom/deduper_test.go:22-27 | an expired key is reported new and marked again with expiry now + TTL |
| WeComClient.TokenStep | internal/wecom/client.go:101-144 | a request is made exactly when the cached token is empty or within 2 minutes of its expiry; a returned token is non-empty and cached; a failure leaves the cache as it was; without a request the cached token is returned |
| WeComClient.SuccessfulFetchCaches | internal/wecom/client.go:138-143 | a reply with errcode 0, a token and a non-zero expires_in is returned and cached until now + expires_in seconds |
| WeComClient.RejectedFetchFails | internal/wecom/client.go:131-136 | a reply with a non-zero errcode, an empty token or a zero expires_in fails |
| WeComClient.FetchedTokenIsReused | internal/wecom/client.go:103-107 | a fetched token is returned again, without a request, until 2 minutes before its expiry |
| WeComClient.SendStep | internal/wecom/client.go:64-98 | a send leaves the token cache as the token step leaves it |
| WeComClient.SendStepOutcomes | internal/wecom/client.go:64-98 | when no token is obtained the send fails with that error and posts nothing; otherwise its last request posts the payload with the token, and it succeeds exactly when the reply's errcode is 0 |
| WeComClient.TwoSendsOneFetch | internal/wecom/client_test.go:52-65 | two sends within the token's life make one token request followed by two message posts |
| WeComClient.WithTaskId | internal/wecom/client.go:51-54 | a card without a task_id gets "daily-help-" and the clock in decimal; a card with one is unchanged; no other key changes |
| WeComClient.DefaultTaskIdEncodesClock | internal/wecom/client.go:53 | the generated task_id is "daily-help-" followed by digits that read back as the clock |
| WeComClient.Client.constructor | internal/wecom/client.go:32-37 | a new client keeps its configuration and has no token and no requests |
| WeComClient.Client.GetAccessToken | internal/wecom/client.go:101-144 | the method returns and caches as `TokenStep` says and records a token request exactly when one is made |
| WeComClient.Client.SendMessage | internal/wecom/client.go:64-98 | the method returns, caches and records requests as `SendStep` says |
| WeComClient.Client.SendText | internal/wecom/client.go:39-49 | sends the text payload for the user through `SendStep` |
| WeComClient.Client.SendTemplateCard | internal/wecom/client.go:51-62 | gives the card a task_id as `WithTaskId` says, then sends the card payload through `SendStep` |
| Message.EventKeysDistinct | internal/wecom/message.go:14-21 | the five card event keys are pairwise distinct |
| Message.NewUnraidActionCard | internal/wecom/message.go:35-60 | a button-interaction card titled "Unraid 容器操作" whose buttons carry the restart, stop and force-update keys, in that order |
| Message.NewConfirmCard | internal/wecom/message.go:62-82 | a button-interaction card titled "确认执行" whose description is the action name, "：" and the container name, with the confirm and cancel buttons |
| Message.ConfirmCardDescDeterminesName | internal/wecom/message.go:67 | two confirm cards for the same action are equal only for the same container name |
| State.ActionFromEventKey | internal/core/state.go:23-34 | a key gives an action exactly when it is one of the three action keys, and that action is a known one; any other key gives the empty action |
| State.ActionKeysRoundTrip | internal/core/state.go:23-34 | each known action's key is an action key and maps back to that action |
| State.RecognisedKeysAreCardKeys | internal/core/state.go:23-34 | every key that gives an action is a button key of the action card |
| State.DisplayName | internal/core/state.go:36-47 | an action gets the "未知动作" name exactly when it is not one of the three known actions |
| State.DisplayNameInjective | internal/core/state.go:36-47 | distinct known actions have distinct display names |
| State.GetStep | internal/core/state.go:69-81 | an entry is returned exactly when present and not past its expiry, with the store unchanged; otherwise the zero state is returned and the entry is deleted |
| State.SetStep | internal/core/state.go:83-88 | storing puts the user's entry with expiry now + TTL and leaves every other entry alone |
| State.ClearStep | internal/core/state.go:90-94 | clearing removes exactly the user's entry and leaves the others as they were |
| State.StateStore.constructor | internal/core/state.go:62-67 | a new store is empty with the given TTL |
| State.StateStore.Get | internal/core/state.go:69-81 | the method answers and updates the store as `GetStep` says |
| State.StateStore.Set | internal/core/state.go:83-88 | the method stores as `SetStep` says |
| State.StateStore.Clear | internal/core/state.go:90-94 | the method removes as `ClearStep` says |
| State.GetAfterSet | internal/core/state.go:69-88 | a get no later than one TTL after a set finds the stored step, action and name, with expiry set time + TTL |
| State.GetAfterExpiry | internal/core/state.go:76-79 | a get later than one TTL after a set finds nothing and deletes the entry |
| State.SetIgnoresCallerExpiry | internal/core/state.go:86 | states that differ only in their expiry are stored alike |
| State.GetMissingChangesNothing | internal/core/state.go:72-75 | a get for a user with no entry returns the zero state and leaves the store unchanged |
| State.OtherUsersUntouched | internal/core/state.go:69-94 | get, set and clear for one user neither add, remove nor change any other user's entry |
| Validation.ValidateContainerName | internal/core/validation.go:12-21 | the input is accepted exactly when its trimmed form matches the name pattern, and then the trimmed form is returned; a blank input is refused as empty, any other refusal is the pattern error |
| Validation.ContainerNameIsTrimmed | internal/core/validation.go:9 | a name matching the pattern has no surrounding white space |
| Validation.ValidateIdempotent | internal/core/validation.go:12-21 | validating an accepted name again gives the same result |
| Validation.BlankRejected | internal/core/validation.go:13-16 | a blank input is refused as empty |
| Validation.SlashRejected | internal/core/validation_test.go:19 | a trimmed name holding "/" is refused with the pattern error |
| Validation.LeadingDashRejected | internal/core/validation_test.go:20 | a trimmed name starting with "-" is refused with the pattern error |
| Validation.NonAsciiRejected | internal/core/validation_test.go:21 | a trimmed name holding a non-ASCII character is refused with the pattern error |
| Validation.LengthBoundIsExact | internal/core/validation_test.go:22-23 | a name of at least two allowed characters starting with a letter or digit is accepted exactly when it is at most 128 long |
| Router.IsEntryKeyword | internal/core/router.go:177-185 | the trimmed, lower-cased content is one of help, 菜单, 容器, docker, unraid |
| Router.ExecCalls | internal/core/router.go:164-175 | a known action makes exactly one back-end call; any other action makes none |
| Router.TextStep | internal/core/router.go:63-100 | text never dispatches; it gets one reply exactly when it is non-empty: the menu for an entry keyword, the prompt outside a naming state, the validation error, or the confirm card after storing the name |
| Router.ConfirmStep | internal/core/router.go:128-151 | one reply and at most one dispatch; a dispatch comes only from a live AwaitingConfirm state, runs its stored action and name, and clears that state |
| Router.EventStep | internal/core/router.go:102-113 | at most one reply and one dispatch; enter_agent clears and opens the menu, events other than template_card_event do nothing, and a dispatch needs the confirm key |
| Router.CardStep | internal/core/router.go:115-161 | at most one reply and one dispatch, and a dispatch only for the confirm key; an action key awaits a name, cancel clears, other keys do nothing |
| Router.MessageStep | internal/core/router.go:36-61 | at most one reply and one dispatch; a sender off the allow-list changes no state and dispatches nothing |
| Router.Render | internal/core/router.go:42-158 | every reply is addressed to the user who sent the message |
| Router.RenderAll | internal/core/router.go:36-162 | one outbound message per reply, each the rendering of that reply, in order |
| Router.Router.constructor | internal/core/router.go:27-34 | a new router keeps its whitelist, starts with an empty state store whose TTL is 30 minutes, and has sent and dispatched nothing |
| Router.Router.Send | internal/core/router.go:42-45 | sending appends one rendered message and dispatches nothing |
| Router.Router.ExecAction | internal/core/router.go:164-175 | the method returns the back end's answer and records the calls `ExecCalls` gives, sending nothing |
| Router.Router.HandleText | internal/core/router.go:63-100 | the store, the messages sent and the back-end calls change as `TextStep` says |
| Router.Router.HandleEvent | internal/core/router.go:102-113 | the store, the messages sent and the back-end calls change as `EventStep` says |
| Router.Router.HandleCardEvent | internal/core/router.go:115-161 | the store, the messages sent and the back-end calls change as `CardStep` says |
| Router.Router.HandleConfirm | internal/core/router.go:128-151 | the store, the messages sent and the back-end calls change as `ConfirmStep` says |
| Router.Router.HandleMessage | internal/core/router.go:36-61 | the store, the messages sent to the trimmed sender and the back-end calls change as `MessageStep` says |
| RouterProperties.EntryKeywordNonEmpty | internal/core/router.go:177-184 | an entry keyword is never empty |
| RouterProperties.TextStepFacts | internal/core/router.go:63-100 | a text step never calls the back end and leaves every other user's entry as it was |
| RouterProperties.EventStepFacts | internal/core/router.go:102-162 | an event step leaves every other user's entry as it was |
| RouterProperties.EventStepDispatch | internal/core/router.go:128-139 | an event step calls the back end only for a confirm press on a live entry awaiting confirmation, and then exactly once with the stored action and name, clearing the entry |
| RouterProperties.BlankSenderIgnored | internal/core/router.go:37-40 | a message from a blank sender changes nothing, sends nothing and calls nothing |
| RouterProperties.UnlistedSenderRefused | internal/core/router.go:41-47 | a sender not on the whitelist gets only the no-permission reply, and nothing else changes |
| RouterProperties.OtherUsersUntouched | internal/core/router.go:36-162 | handling one user's message never adds, removes or changes another user's conversation |
| RouterProperties.EntryKeywordOpensMenu | internal/core/router.go:68-74 | an entry keyword clears the sender's conversation and sends the action card, calling nothing |
| RouterProperties.EnterAgentOpensMenu | internal/core/router.go:103-109 | entering the agent clears the sender's conversation and sends the action card, calling nothing |
| RouterProperties.ActionKeyAwaitsName | internal/core/router.go:117-126 | pressing an action key stores that action awaiting a container name, with expiry now + TTL, and calls nothing |
| RouterProperties.TextOutsideNamingPrompts | internal/core/router.go:76-82 | other text, when no live entry awaits a name, only gets the open-menu prompt; the store changes only by the lookup's own removal of an expired entry |
| RouterProperties.InvalidNameKeepsState | internal/core/router.go:84-90 | an invalid name gets the validation reason and the store is unchanged |
| RouterProperties.ValidNameAwaitsConfirm | internal/core/router.go:92-99 | a valid name is stored, trimmed, with the stored action as awaiting confirmation, and the confirm card for them is sent |
| RouterProperties.ConfirmWithoutPendingNeverDispatches | internal/core/router.go:128-135 | confirm without a live entry awaiting confirmation gets only "session expired" and calls nothing |
| RouterProperties.DispatchOnlyOnPendingConfirm | internal/core/router.go:128-139 | any message that calls the back end is a confirm press from a listed sender with a live entry awaiting confirmation, and it calls once with the stored action and name |
| RouterProperties.CancelClears | internal/core/router.go:153-158 | cancel clears the sender's conversation and replies "cancelled" |
| RouterProperties.IgnoredEvents | internal/core/router.go:111-113 | events other than entering the agent, and card presses with unknown keys, change nothing and get no reply |
| RouterProperties.UnsupportedTypeReply | internal/core/router.go:54-59 | a message that is neither text nor event gets only the unsupported-type reply |
| RouterProperties.TextStepPreservesWellFormed | internal/core/router.go:84-99 | a text step keeps every stored conversation well formed: a known action, and a valid name once awaiting confirmation |
| RouterProperties.EventStepPreservesWellFormed | internal/core/router.go:115-126 | an event step keeps every stored conversation well formed |
| RouterProperties.StepPreservesWellFormed | internal/core/router.go:36-162 | handling any message keeps every stored conversation well formed |
| RouterProperties.DispatchedRequestsAreValid | internal/core/router.go:164-175 | from a well-formed store, every back-end call names a known action and a valid container name |
| RouterProperties.ConfirmRunsStoredAction | internal/core/router.go:136-139 | confirm on a live entry awaiting confirmation runs the stored action on the stored name, clears the entry and reports the back end's answer |
| RouterProperties.PendingConfirmDispatches | internal/core/router.go:136-139 | from a well-formed store, such a confirm makes exactly one back-end call |
| RouterProperties.RunKeepsDispatchesValid | internal/core/router.go:36-175 | over any sequence of messages from a well-formed store, the store stays well formed and every back-end call is valid |
| RouterProperties.UnlistedUsersNeverDispatch | internal/core/router.go:41-47 | messages from unlisted senders never call the back end and never change the store |
| RouterProperties.PickThenName | internal/core/router.go:84-126 | pressing an action and, within the TTL, typing a valid name leaves that action and name awaiting confirmation, without any back-end call |
| RouterProperties.ConfirmPressIsConfirmStep | internal/core/router.go:128 | a confirm press from a listed user is handled by the confirm branch alone |
| RouterProperties.ConfirmEndsConversation | internal/core/router.go:128-139 | confirming a live pending action calls it once and leaves the user with no conversation |
| RouterProperties.ConfirmAfterEndExpired | internal/core/router.go:129-135 | a confirm press from a user with no conversation gets "session expired" and calls nothing |
| UnraidNames.NormalizePrefixedID | internal/unraid/client.go:185-190 | an id without ":" is kept; otherwise the result is what follows the first ":" |
| UnraidNames.PrefixedIDDropsPrefix | internal/unraid/client.go:185-190 | "server:rest" becomes rest, even when rest holds further colons |
| UnraidNames.NormalizeName | internal/unraid/client.go:192-194 | the name trimmed of white space, less one leading "/" |
| UnraidNames.NormalizeNameDropsOneSlash | internal/unraid/client.go:192-194 | a name is trimmed and then loses one leading "/" if it has one, and no more |
| UnraidNames.OnlyOneSlashRemoved | internal/unraid/client.go:192-194 | "//x" becomes "/x" |
| UnraidNames.StringItems | internal/unraid/client.go:200-207 | the kept items are exactly the string items of the list, and no more of them than the list has |
| UnraidNames.StringItemsAppend | internal/unraid/client.go:200-207 | the string items of two concatenated lists are the two results concatenated, so order is kept |
| UnraidNames.ContainerNames | internal/unraid/client.go:196-211 | a single string is a one-name list; a list gives exactly its string items; any other value gives none |
| UnraidNames.NormalizeContainerNames | internal/unraid/client.go:196-211 | the loop returns what `ContainerNames` says |
| UnraidNames.NormalizeAll | internal/unraid/client.go:119-120 | every name normalised, in order |
| UnraidNames.FirstMatch | internal/unraid/client.go:115-123 | there is a match exactly when the wanted name is among the normalised names of the containers |
| UnraidNames.FirstMatchPrefix | internal/unraid/client.go:118-123 | a match found among the first k containers is the match for the whole list |
| UnraidNames.FirstMatchIsFirst | internal/unraid/client.go:118-123 | the match is the id, without its server prefix, of the earliest container having the name |
| UnraidNames.Distinct | internal/unraid/client.go:124-131 | exactly the non-empty names, each once |
| UnraidNames.SortKeepsElements | internal/unraid/client.go:135 | sorting the candidates gives a sorted list with the same names, still pairwise distinct |
| UnraidNames.SortedPrefixShape | internal/unraid/client.go:135-141 | the examples are at most 10 distinct sorted candidates, each one no later than any candidate left out, and all of them when there are at most 10 |
| UnraidNames.ExamplesShape | internal/unraid/client.go:115-143 | the error's examples are at most 10 distinct sorted non-empty container names, the alphabetically first ones, and all of them when there are at most 10 |
| UnraidNames.Lookup | internal/unraid/client.go:100-144 | a failed query is passed on; otherwise the lookup succeeds exactly when the normalised wanted name is among the container names |
| UnraidNames.NoteName | internal/unraid/client.go:124-131 | a non-empty name is appended to the candidates exactly when it is new, and the seen set stays the candidates' set |
| UnraidNames.VisitNames | internal/unraid/client.go:119-132 | the loop over one container's names finds the wanted name exactly when it is among them, and otherwise extends the candidates as `Distinct` says |
| UnraidNames.FindContainerIDByName | internal/unraid/client.go:100-144 | the method returns what `Lookup` says |
| UnraidSchema.TypeString | internal/unraid/client.go:410-431 | the rendered type is never empty |
| UnraidSchema.TypeStringOfIntrospection | internal/unraid/client.go:410-431 | rendering an introspected type gives its GraphQL syntax back |
| UnraidSchema.BaseKind | internal/unraid/client.go:438-448 | the kind under the NON_NULL and LIST wrappers; a wrapper without an inner type is its own base kind |
| UnraidSchema.RequiresSelectionSet | internal/unraid/client.go:433-436 | a selection set is needed exactly when the base kind is OBJECT, INTERFACE or UNION |
| UnraidSchema.BaseKindOfIntrospection | internal/unraid/client.go:438-448 | the base kind of an introspected type is the kind of its innermost named type |
| UnraidSchema.SelectionSetOfIntrospection | internal/unraid/client.go:433-448 | a selection set is needed exactly when the innermost named type is an object, interface or union |
| UnraidSchema.Innermost | internal/unraid/client.go:438-448 | unwrapping lists and non-nulls ends at a named type |
| UnraidSchema.FindArg | internal/unraid/client.go:482-491 | a found argument is in the list with the wanted name; none is found exactly when no argument has that name |
| UnraidSchema.PickIDArg | internal/unraid/client.go:481-496 | "id" is preferred, then "dockerId", then the only argument when there is exactly one; the type is rendered with it |
| UnraidSchema.FirstUsable | internal/unraid/client.go:312-330 | nothing is found exactly when no candidate is usable; otherwise the first usable candidate, with its id argument |
| UnraidSchema.FilterUpdateLike | internal/unraid/client.go:337-341 | exactly the names mentioning update, pull or recreate, in the same order |
| UnraidSchema.SortedNames | internal/unraid/client.go:332-336 | the field names, exactly, sorted |
| UnraidSchema.SelectForceUpdate | internal/unraid/client.go:284-360 | a configured field that is missing, or has no usable id argument, is an error, and a usable one is chosen; without one the search never fails |
| UnraidSchema.FixedCandidateWins | internal/unraid/client.go:301-330 | the first usable field of the fixed candidate list is chosen |
| UnraidSchema.FirstUsableOfSortedIsLeast | internal/unraid/client.go:337-358 | in a sorted list the first usable name is the least usable one |
| UnraidSchema.FallbackIsAlphabeticallyFirst | internal/unraid/client.go:332-360 | when no fixed candidate is usable, the choice is the alphabetically first usable field mentioning update, pull or recreate, and there is none exactly when no such field is usable |
| UnraidActions.Classify | internal/unraid/client.go:155-159 | a call succeeded exactly when there is no error; it counts as already done exactly when the error mentions "already" and the target state |
| UnraidActions.Restart | internal/unraid/client.go:46-62 | an unknown name fails before any mutation; otherwise stop comes first, and restart succeeds exactly when neither stop nor start failed for a reason other than already being in that state |
| UnraidActions.Stop | internal/unraid/client.go:64-76 | an unknown name fails before any mutation; otherwise one stop, which succeeds unless it failed for a reason other than already being stopped |
| UnraidActions.UnknownNameIssuesNoMutation | internal/unraid/client.go:46-76 | a name that does not resolve issues no mutation, and the error lists the examples |
| UnraidActions.RestartStopsLikeStop | internal/unraid/client.go:46-76 | a restart whose stop fails fails like stop; otherwise it issues stop's calls and then a start on the same id |
| UnraidActions.ForceUpdateQuery | internal/unraid/client.go:498-503 | the mutation text: the variable typed with the argument type, the field called with the ID argument, and " { __typename }" when the result needs a selection |
| UnraidActions.SelectedIsMetaFor | internal/unraid/client.go:287-360 | a selected mutation describes a usable field of the schema, the configured one when a name is configured |
| UnraidActions.MetaForFacts | internal/unraid/client.go:292-298 | a field's mutation description names the field, takes the argument and rendered type PickIDArg chose, and needs a selection as the return type says |
| UnraidActions.QuerySelectsWhenNeeded | internal/unraid/client.go:498-503 | the query names the argument type, the field and its argument, and ends in a "{ __typename }" selection exactly when the description asks for one |
| UnraidActions.ForceUpdateQueryMatchesSchema | internal/unraid/client.go:498-503 | for a selected field, the query calls that field (the configured one if any) with the argument and type PickIDArg chose, and carries "{ __typename }" exactly when the field's base kind is OBJECT, INTERFACE or UNION |
| UnraidActions.ForceUpdate | internal/unraid/client.go:78-93 | a failed lookup, a failed introspection, a missing docker mutation type, a selection error and no usable field each end with their error and no mutation; with a selected field exactly one mutation is sent, on the looked-up id, and the action succeeds exactly when that call does |
| UnraidActions.UpdateFieldIsPicked | internal/unraid/client.go:301-330 | a schema whose only field is update(id: PrefixedID!) returning an object gets that field, argument and type, with a selection |
| Config.ToSlogLevel | internal/config/config.go:31-44 | the lower-cased name selects debug, info (also for ""), warn (also for "warning") or error, and info for anything else |
| Config.LevelNamesSelectTheirLevel | internal/config/config.go:31-44 | "debug", "info", "warn", "error" and also "warning" select their levels |
| Config.LevelIgnoresCase | internal/config/config.go:32 | names that differ only in letter case select the same level |
| Config.UnknownLevelIsInfo | internal/config/config.go:41-42 | any other name, the empty one included, selects info |
| Config.OrDefault | internal/config/config.go:104-117 | an empty field takes its default; a set one is kept |
| Config.WithDefaults | internal/config/config.go:104-117 | the log level, listen address, WeCom API base URL and Unraid origin take their defaults when empty, and nothing else changes |
| Config.ApplyDefaults | internal/config/config.go:104-117 | the method gives what `WithDefaults` says |
| Config.DefaultsIdempotent | internal/config/config.go:104-117 | applying the defaults twice is the same as once |
| Config.DefaultsKeepSetFields | internal/config/config.go:104-117 | a configuration whose four defaulted fields are all set is left as it is |
| Config.FieldFindings | internal/config/config.go:122-153 | the top-level field checks in the order validate makes them, the Unraid pair only when either is given |
| Config.FieldFindingsHas | internal/config/config.go:122-153 | a required field is reported missing exactly when it is empty (zero for the agent id), the Unraid pair counting only when either is given |
| Config.FieldFindingsEmptyIff | internal/config/config.go:122-153 | there are no field findings exactly when no required field is missing |
| Config.FieldProblemsEmptyIff | internal/config/config.go:122-153 | there are no field problems exactly when no field of the configuration is missing |
| Config.Findings | internal/config/config.go:157-186 | an instance's problems in order: a blank id or URL replaces its other checks, then the name, client id and client secret checks |
| Config.FindingsEmptyIff | internal/config/config.go:159-186 | an instance has no findings exactly when every one of its checks passes |
| Config.FindingsAreAboutInstance | internal/config/config.go:157-186 | every finding of an instance names that instance's index |
| Config.InstanceCheck | internal/config/config.go:157-186 | the findings of instance i, with "taken" meaning an earlier instance has the same non-blank id |
| Config.InstanceCheckEmptyIff | internal/config/config.go:159-186 | an instance's check passes exactly when the instance is valid and its id was not taken by an earlier instance |
| Config.ChecksPassIff | internal/config/config.go:155-188 | the first n instance checks pass exactly when each of those instances is valid and its id untaken |
| Config.UntakenIffDistinct | internal/config/config.go:165-168 | among valid instances, no id is taken exactly when the ids are pairwise distinct |
| Config.InstanceProblemsEmptyIff | internal/config/config.go:155-188 | there are no instance problems exactly when the instances are valid and their ids distinct |
| Config.Problems | internal/config/config.go:119-196 | the field problems, then every instance's problems in order, then the missing allow-list and the missing back end |
| Config.ErrorFor | internal/config/config.go:199-202 | there is an error exactly when there are problems, and it starts with the "配置校验失败: " prefix |
| Config.SeenIdsStep | internal/config/config.go:165-168 | each instance adds its id to the seen set unless the id is blank |
| Config.SeenIsTaken | internal/config/config.go:165-168 | an instance's id is already in the seen set exactly when an earlier instance has that id |
| Config.CheckInstance | internal/config/config.go:157-187 | the loop body returns the findings `InstanceCheck` specifies and adds the id to the seen set |
| Config.CheckInstances | internal/config/config.go:155-188 | the loop appends the findings of every instance, in order |
| Config.Validate | internal/config/config.go:119-203 | the method returns the error `ErrorFor` gives for the problems `Problems` specifies |
| Config.ValidateAcceptsIff | internal/config/config.go:119-203 | validation accepts exactly the valid configurations |
| Config.MissingFieldReported | internal/config/config.go:122-153 | a field is reported missing exactly when it is missing |
| Config.RepeatedIdReported | internal/config/config.go:165-167 | an instance repeating an earlier non-blank id is reported as repeated |
| Config.Load | internal/config/config.go:85-102 | a decoding failure is passed on; a loaded configuration is the decoded one with its defaults applied |
| Config.LoadedIsValid | internal/config/config.go:85-102 | a loaded configuration is valid |
| Config.DefaultedFieldsNeverMissing | internal/config/config.go:104-143 | after the defaults, the listen address and the WeCom API base URL are never reported missing |
| Text.TrimSpace | internal/wecom/callback.go:34-36 | strings.TrimSpace as the handlers apply it to every field: leading and trailing Unicode white space dropped |
| Text.TrimSpaceEndsClean | internal/wecom/callback.go:34-36 | a trimmed string neither starts nor ends with white space |
| Text.BlankIffTrimsToEmpty | internal/config/config.go:159 | a string trims to "" exactly when it is all white space |
| Ordering.SortStringsCorrect | internal/wecom/crypto.go:56 | sorting gives a sorted permutation of its input |
| Ordering.SortIgnoresOrder | internal/unraid/client.go:336 | the sorted result depends only on the multiset of names |
| Startup.UniqueNonEmpty | cmd/wecom-home-ops/main.go:268-286 | the result is nil exactly when the input is empty; the loop returns the kept values of the trimmed inputs |
| Startup.KeptSound | cmd/wecom-home-ops/main.go:274-284 | every kept value is non-empty and is one of the trimmed inputs |
| Startup.KeptComplete | cmd/wecom-home-ops/main.go:274-284 | every non-empty trimmed input is kept |
| Startup.KeptDistinct | cmd/wecom-home-ops/main.go:279-283 | the kept values are pairwise distinct |
| Startup.KeptInFirstOccurrenceOrder | cmd/wecom-home-ops/main.go:274-284 | a value kept earlier first occurs earlier among the inputs, so the kept values are in first-occurrence order |
| Startup.KeptEmptyIff | cmd/wecom-home-ops/main.go:274-284 | nothing is kept exactly when every trimmed input is empty |
| Startup.UniqueValuesAreTrimmed | cmd/wecom-home-ops/main.go:275 | every kept value is non-empty, already trimmed, and the trimmed form of some input |
| Startup.TrimsAllEmptyIff | cmd/wecom-home-ops/main.go:111-113 | every trimmed input is empty exactly when every input is blank |
| Startup.Recipients | cmd/wecom-home-ops/main.go:111-127 | there is no recipient list, and so no notification, exactly when every allowed user id is blank |
| Startup.LabelOf | cmd/wecom-home-ops/main.go:185-198 | there is no label exactly when id and name are both empty; a label is never empty, starts with the id when there is one, and is the name when only the name is set |
| Startup.InstanceLabels | cmd/wecom-home-ops/main.go:183-198 | the loop collects the label of every instance that has one, in order |
| Startup.SomesCount | cmd/wecom-home-ops/main.go:183-198 | there are at most as many labels as entries, and as many exactly when every entry has one |
| Startup.LabelsCount | cmd/wecom-home-ops/main.go:183-198 | there are at most as many labels as instances, and as many exactly when every instance has a trimmed id or name |
| Startup.IdOfLabel | cmd/wecom-home-ops/main.go:188 | the id read back from a label is a prefix of it |
| Startup.LabelCutsAtId | cmd/wecom-home-ops/main.go:185-192 | a non-empty id free of "(" is read back from its label, whatever the name |
| Startup.PatternIdIsTrimmed | internal/config/config.go:83 | an id matching the instance-id pattern is already trimmed |
| Startup.PatternIdHasNoParen | internal/config/config.go:83 | an id matching the instance-id pattern is not empty and holds no "(" |
| Startup.CleanIdReadBack | cmd/wecom-home-ops/main.go:185-192 | an instance whose id is set, trimmed and free of "(" is labelled, and its id reads back |
| Startup.ValidLabelRecoversId | cmd/wecom-home-ops/main.go:185-192 | an instance whose id matches the pattern is labelled, and its id reads back from the label |
| Startup.LastSettingIsLast | cmd/wecom-home-ops/main.go:223-232 | a key has no value exactly when no setting has that key; otherwise its value is that of its last occurrence |
| Startup.VersionPart | cmd/wecom-home-ops/main.go:215-218 | the version is either dropped or the trimmed version, and it is dropped exactly when it is blank or "(devel)" |
| Startup.ShortRevision | cmd/wecom-home-ops/main.go:234-236 | the revision is a prefix of at most 12 characters, and is kept whole exactly when it has at most 12 |
| Startup.ReadSettings | cmd/wecom-home-ops/main.go:220-232 | the loop returns the trimmed value of the last vcs.revision, vcs.modified and vcs.time settings |
| Startup.AssembleParts | cmd/wecom-home-ops/main.go:238-250 | the non-empty version, the non-empty revision, "dirty" when modified, and the non-empty build time, in that order |
| Startup.BuildInfoSummary | cmd/wecom-home-ops/main.go:209-253 | the method returns the summary `Summary` specifies |
| Startup.JoinOfNonEmpty | cmd/wecom-home-ops/main.go:252 | joining non-empty parts is empty exactly when there are none, and starts with the first part |
| Startup.SummaryEmptyIff | cmd/wecom-home-ops/main.go:209-253 | the summary is empty exactly when there is no build information, or no version, revision, dirty flag or build time to list |
| Startup.SummaryStartsWithVersion | cmd/wecom-home-ops/main.go:215-252 | a listed version begins the summary |
| Startup.DirtyIffModified | cmd/wecom-home-ops/main.go:227-247 | "dirty" is listed exactly when the last vcs.modified value is "true" (no other part being the text "dirty") |
| Startup.JoinUrlPath | cmd/wecom-home-ops/main.go:255-266 | a blank base or a blank path gives the empty string |
| Startup.JoinIgnoresLeadingSlash | cmd/wecom-home-ops/main.go:261 | "/p" and "p" join to the same URL |

## Left out

- AES-CBC, SHA-1, SHA-256, base64, XML and YAML decoding, regular expressions and `url.JoinPath`
  are parameters or predicates. Their laws are stated by `Crypto.Lawful` and required by the
  round-trip lemmas. Nothing is proved about the libraries themselves.
- Network I/O, HTTP transports, timeouts, context cancellation, signals, and the server's start-up
  and shutdown are left out. The replies of WeCom and Unraid are inputs to the step functions.
- Concurrency is left out, and every method runs alone. The client's token refresh is not
  single-flight: concurrent refreshes are possible, and the model does not show them.
- Dedup: the de-duplicator's implementation file is not part of this model. Its behaviour follows
  its tests:
  - a key expires once now is strictly later than its expiry;
  - a hit does not refresh the expiry;
  - a TTL of zero or less means 10 minutes (the tests pin only zero).

  Its background pruning goroutine and `Close` are left out; `PruneExpired` is the pruning step.
- Startup: the start-up message text and the sending of the notification are not modelled. The
  text covers the hostname, PID, wall clock, Go version, listen addresses and the "enabled"
  lines. Only the pure helpers are modelled.
- Router.Router.HandleConfirm: the elapsed milliseconds come from the clock, so they are a
  parameter.
- The Qinglong client (internal/qinglong) and cmd/daily-help are not part of this model.
  internal/app/server.go, which wires the handlers together, is not part of it either. The
  callback model covers a handler both with and without a de-duplicator.
- Config.ApplyDefaults: the defaults are applied to a value that is returned; Go's applyDefaults
  updates the caller's Config in place.
- Config.ToSlogLevel: the level is an enumeration, not `slog.Level`, and the lemmas about it carry
  its contract.
- Text.ToLower folds ASCII letters only, while Go's `strings.ToLower` folds every Unicode letter.
  The level names and the entry keywords compared with it are ASCII or CJK, so this makes no
  difference to them.
- Ghost functions: UnraidSchema.SelectForceUpdate, UnraidSchema.SortedNames and
  UnraidActions.ForceUpdate. Go walks the schema's field map in random order and then sorts the
  names, so the model takes them as a set. The result does not depend on that order.
- WeComClient.TokenStep: the cached expiry is now + expires_in seconds over unbounded integers. Go
  multiplies `time.Duration(expiresIn) * time.Second` in int64 nanoseconds, which wraps for an
  expires_in above about 9.2 * 10^9 seconds, so a token reply with such a value would give a
  wrong expiry there; the model does not show that wrap.
- Crypto.DecryptEncrypt needs the message to be shorter than 2^32 bytes. Encrypt writes the length
  as a uint32, so longer messages would not round-trip.
- Startup.UniqueNonEmpty: Go's nil result is the `isNil` flag, and the seen map is the kept list.
- The router calls `validateContainerName`, which internal/core/validation.go now exports as
  `ValidateContainerName`; the model binds the call to that function. Incoming messages carry the
  `MsgID` and `ResponseCode` fields that callback.go reads.
- UnraidActions.Stop: the state returned by the stop mutation is read at
  internal/unraid/client.go:161-164, but both branches return success. The model therefore ignores
  it.
- Crypto.Pkcs7Unpadded: its own contract states only that a result is a strict prefix. Its exact
  behaviour is stated by the pair `UnpadPad`/`PadUnpad`.
- UnraidSchema.TypeString: its own contract states only that a rendering is never empty. The
  rendering itself is stated by `TypeStringOfIntrospection` for well-formed types. The fall-backs
  for a missing inner type ("String!", "[String]", "String") are in its body only.
- Startup.JoinUrlPath: its contract states only the blank cases. The successful join is whatever
  the `url.JoinPath` parameter returns.
- WeComClient.SendStep: its own contract states only the cache. The requests and the outcome are
  stated by `SendStepOutcomes`.
- Callback.CallbackStep: its own contract states only that a delivery is answered success. The
  de-duplication is stated by the lemmas that follow it.
- Startup.IdOfLabel: its own contract states only that it returns a prefix. Reading an id back is
  stated by `LabelCutsAtId`.

## Findings

| source | as written | input that shows it | evidently intended | confidence | as-written member | corrected member |
|---|---|---|---|---|---|---|
| internal/wecom/crypto.go:91-96 | `int(20+msgLen)` adds in uint32 before converting, so a length field near 2^32 wraps to a small number and passes the bounds guard | a 20-byte frame whose length field is 0xFFFFFFFF: the guard compares 19 with 20 and passes, then `plain[20:20+msgLen]` has a low bound above its high bound and panics | refuse the frame as a length out of range | not executed | Crypto.MsgLenWrapPanics | Crypto.ParseFrame |
