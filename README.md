# Claude Platform — a Dafny model of the relay and its services

This project models the server side of the Claude Platform and proves properties of the model. The platform is a web application, and a local "connector" client relays chat requests to a Claude command-line tool. The model covers these parts:

- **The WebSocket relay.**
  - `ChatMessages`: the message record and its six factories.
  - `Connections`: the `ConnectionManager` session registry. It has four tables: user to sessions, client sessions, session to user, and session to type. It also has its send and evict-on-failure loops.
  - `Router`: `MessageHandler`'s dispatch on the type tag, covering auth, heartbeat, chat request and chat response.
  - `Transport`: `ChatWebSocketHandler`, which covers token extraction from the handshake query, the connection lifecycle, and frames that do not decode.
- **The pure helpers.**
  - Java `String` semantics, in `JavaText`: `toLowerCase`, `lastIndexOf`, `split` with its dropping of trailing empty strings, `trim`, the `\s+` collapse, and `parseInt`/`parseLong`.
  - File names, in `FileNames`, from `FileUtil`.
  - Durations, in `Durations`, from `DateUtil`.
  - The download page's User-Agent classification, in `Downloads`.
  - Git and project analysis, in `Projects`, from `ProjectService`.
  - The connector's configuration check, in `ConnectorConfig`.
  - The frontend router guard, in `RouteGuard`.
- **The table-backed services.** Each one is a class over repository objects whose maps and sequences its methods reassign:
  - token accounting, in `TokenLedger`;
  - system configuration, in `SystemConfigs`;
  - users, in `Users`;
  - conversations, in `Conversations`;
  - start-up seeding, in `DataInit`;
  - the chat flow `processChat`, in `ChatFlow`.

The state-changing methods are specified against functions of the old state. For example, `ConnectionManager.RemoveSession` ensures `Tables() == Remove(old(Tables()), session)`. The properties are proved as lemmas about those functions: idempotence, frames, preserved invariants, and routing. A method that iterates a Java `HashMap` or a set returns the iteration order as a ghost out-parameter, and its contract holds for that order.

The code behaves as follows, and the model follows it:

- A heartbeat is answered without any authentication check.
- The router's route table matches paths ignoring ASCII case and one trailing "/", but the guard's bounce off the login page compares the path exactly with "/login". A logged-in user who opens "/LOGIN" therefore reaches the login page. `RouteGuard.KeyExamples` exhibits this.
- `initAdminUser` saves the default administrator without checking the username. The row has an assigned id, so `save` merges it and its INSERT waits for a flush inside `run`'s transaction. When no administrator exists but a user named "admin" does, that INSERT violates the unique username column outside the statement that made it. The model takes the resulting rollback as the outcome of the whole start-up: neither table changes, and `run` ends with the exception. `DataInit.DataInitService.Run` and `DataInit.SeedAdminKeepsUnique` state this case.
- A session registered first as a user and then as a client stays in the user tables after `removeSession`. `Connections.UserThenClientLeaks` exhibits this.
- `DataInitService` seeds upper-case configuration keys, which are not the lower-case keys `SystemService` reads. `DataInit.SeededKeysNotRead` shows that the per-request limit therefore still reads its default. The seeded per-request limit is 4000 and the getter's default is 1000. The seeded maximum file size is 50 MB and the getter's default is 10 MB.

Paths in the table below are relative to the repository root. The backend sources are under `claude-platform-backend/src/main/java/com/proshine/claudeplatformbackend/`.

## Model

| member | source | states |
|---|---|---|
| ChatMessages.Auth | claude-platform-backend/src/main/java/com/proshine/claudeplatformbackend/websocket/ChatMessage.java:34-42 | an auth message gets a fresh id and the current time, and carries the given user id and client type with no content or data |
| ChatMessages.Heartbeat | claude-platform-backend/src/main/java/com/proshine/claudeplatformbackend/websocket/ChatMessage.java:44-51 | a heartbeat gets a fresh id and carries the given user id only |
| ChatMessages.ChatRequest | claude-platform-backend/src/main/java/com/proshine/claudeplatformbackend/websocket/ChatMessage.java:53-62 | a chat request gets a fresh id and carries user id, content and data |
| ChatMessages.ChatResponse | claude-platform-backend/src/main/java/com/proshine/claudeplatformbackend/websocket/ChatMessage.java:64-72 | a chat response keeps the given id, carries content and data, and has no user id |
| ChatMessages.IdOrFresh | claude-platform-backend/src/main/java/com/proshine/claudeplatformbackend/websocket/ChatMessage.java:74-90 | the id of a reply is always present: the given id when it is non-null, a fresh one otherwise |
| ChatMessages.ErrorReply | claude-platform-backend/src/main/java/com/proshine/claudeplatformbackend/websocket/ChatMessage.java:74-81 | an error reply has type "error", the given text as content and the id of IdOrFresh |
| ChatMessages.SuccessReply | claude-platform-backend/src/main/java/com/proshine/claudeplatformbackend/websocket/ChatMessage.java:83-90 | a success reply has type "success", the given text and the id of IdOrFresh |
| ChatMessages.FactoriesUseDeclaredTypes | claude-platform-backend/src/main/java/com/proshine/claudeplatformbackend/websocket/ChatMessage.java:23-90 | every factory sets the type to one of the six declared type constants |
| Connections.Session.constructor | claude-platform-backend/src/main/java/com/proshine/claudeplatformbackend/websocket/ChatWebSocketHandler.java:38 | a new session has its handshake URI and an empty attribute bag |
| Connections.RoleName | claude-platform-backend/src/main/java/com/proshine/claudeplatformbackend/websocket/ConnectionManager.java:30-41 | a session's type is one of the two client-type constants |
| Connections.Insert | claude-platform-backend/src/main/java/com/proshine/claudeplatformbackend/websocket/ConnectionManager.java:30-41 | adding to a concurrent set keeps every member, adds the element and keeps the set without duplicates |
| Connections.Delete | claude-platform-backend/src/main/java/com/proshine/claudeplatformbackend/websocket/ConnectionManager.java:45-62 | removing from a set drops exactly that element, is the identity when it is absent and keeps the set without duplicates |
| Connections.AddUserIdempotent | claude-platform-backend/src/main/java/com/proshine/claudeplatformbackend/websocket/ConnectionManager.java:30-34 | registering the same user session twice leaves all four tables as one registration does |
| Connections.AddUserQueries | claude-platform-backend/src/main/java/com/proshine/claudeplatformbackend/websocket/ConnectionManager.java:30-34 | after registration the session maps to the user, is typed "user", is in the user's set, and the user has connections |
| Connections.AddClientFrame | claude-platform-backend/src/main/java/com/proshine/claudeplatformbackend/websocket/ConnectionManager.java:38-41 | registering a client adds it to the client set and types it "client" without touching the user tables |
| Connections.AddClientIdempotent | claude-platform-backend/src/main/java/com/proshine/claudeplatformbackend/websocket/ConnectionManager.java:38-41 | registering the same client twice is the same as once |
| Connections.AddUserPreservesWf | claude-platform-backend/src/main/java/com/proshine/claudeplatformbackend/websocket/ConnectionManager.java:19-34 | the four tables stay mutually consistent when a fresh or already-user session is registered as a user |
| Connections.AddClientPreservesWf | claude-platform-backend/src/main/java/com/proshine/claudeplatformbackend/websocket/ConnectionManager.java:38-41 | the tables stay consistent when a session that is not a user session is registered as a client |
| Connections.RemoveIdempotent | claude-platform-backend/src/main/java/com/proshine/claudeplatformbackend/websocket/ConnectionManager.java:45-62 | removing a session twice is the same as removing it once |
| Connections.RemoveUnknown | claude-platform-backend/src/main/java/com/proshine/claudeplatformbackend/websocket/ConnectionManager.java:45-62 | removing a session that no table knows changes nothing |
| Connections.RemoveFrame | claude-platform-backend/src/main/java/com/proshine/claudeplatformbackend/websocket/ConnectionManager.java:45-62 | removing one session leaves every other session's user, type, client membership and user-set membership unchanged |
| Connections.NonEmptySetsPreserved | claude-platform-backend/src/main/java/com/proshine/claudeplatformbackend/websocket/ConnectionManager.java:50-55 | no user key ever maps to an empty set: removal deletes a key whose set empties, and additions never empty a set |
| Connections.UserCountCountsConnectedUsers | claude-platform-backend/src/main/java/com/proshine/claudeplatformbackend/websocket/ConnectionManager.java:118-129 | the user connection count is the number of users with at least one session |
| Connections.RemoveErases | claude-platform-backend/src/main/java/com/proshine/claudeplatformbackend/websocket/ConnectionManager.java:45-62 | on consistent tables, removal forgets the session everywhere and keeps the tables consistent |
| Connections.RolesExclusive | claude-platform-backend/src/main/java/com/proshine/claudeplatformbackend/websocket/ConnectionManager.java:19-28 | in consistent tables a client session is never also a user session |
| Connections.UserThenClientLeaks | claude-platform-backend/src/main/java/com/proshine/claudeplatformbackend/websocket/ConnectionManager.java:33-61 | a session added as user and then as client and then removed is still in the user's set and still counted, though it has no user and no type |
| Connections.DeliveredSpec | claude-platform-backend/src/main/java/com/proshine/claudeplatformbackend/websocket/ConnectionManager.java:97-107 | a send delivers the message only to open, writable targets, and to every such target |
| Connections.DeliveredAllWritable | claude-platform-backend/src/main/java/com/proshine/claudeplatformbackend/websocket/ConnectionManager.java:97-104 | when every target is writable, each gets the message, in order |
| Connections.DeliveredConcat | claude-platform-backend/src/main/java/com/proshine/claudeplatformbackend/websocket/ConnectionManager.java:64-95 | delivering to two target lists in turn is delivering to their concatenation |
| Connections.EvictFailedNoFailures | claude-platform-backend/src/main/java/com/proshine/claudeplatformbackend/websocket/ConnectionManager.java:101-105 | when no write fails, no session is removed |
| Connections.EvictFailedErases | claude-platform-backend/src/main/java/com/proshine/claudeplatformbackend/websocket/ConnectionManager.java:101-105 | every target whose write fails ends up removed from all tables, which stay consistent |
| Connections.UntrackedAfterRemove | claude-platform-backend/src/main/java/com/proshine/claudeplatformbackend/websocket/ConnectionManager.java:45-62 | a removed session stays forgotten through later removals |
| Connections.SendToOne | claude-platform-backend/src/main/java/com/proshine/claudeplatformbackend/websocket/ConnectionManager.java:97-107 | a send to one session writes the frame when the session is writable, removes it when the write fails, and is a no-op when it is closed |
| Connections.EvictFailedConcat | claude-platform-backend/src/main/java/com/proshine/claudeplatformbackend/websocket/ConnectionManager.java:64-107 | evicting along a concatenated target list is evicting along each part in turn |
| Connections.BroadcastStep | claude-platform-backend/src/main/java/com/proshine/claudeplatformbackend/websocket/ConnectionManager.java:88-95 | broadcasting user by user equals one send over the flattened user sets |
| Connections.SendComposes | claude-platform-backend/src/main/java/com/proshine/claudeplatformbackend/websocket/ConnectionManager.java:64-107 | two sends in a row equal one send over both target lists |
| Connections.ConnectionManager.constructor | claude-platform-backend/src/main/java/com/proshine/claudeplatformbackend/websocket/ConnectionManager.java:19-28 | the four tables start empty and nothing has been written |
| Connections.ConnectionManager.AddUserSession | claude-platform-backend/src/main/java/com/proshine/claudeplatformbackend/websocket/ConnectionManager.java:30-36 | the tables become AddUser of the old tables; nothing is written |
| Connections.ConnectionManager.AddClientSession | claude-platform-backend/src/main/java/com/proshine/claudeplatformbackend/websocket/ConnectionManager.java:38-43 | the tables become AddClient of the old tables; nothing is written |
| Connections.ConnectionManager.RemoveSession | claude-platform-backend/src/main/java/com/proshine/claudeplatformbackend/websocket/ConnectionManager.java:45-62 | the tables become Remove of the old tables, so every property of Remove above holds of the method |
| Connections.ConnectionManager.SendMessage | claude-platform-backend/src/main/java/com/proshine/claudeplatformbackend/websocket/ConnectionManager.java:97-107 | the write to one session and its eviction on failure, as SendToOne describes |
| Connections.ConnectionManager.SendEach | claude-platform-backend/src/main/java/com/proshine/claudeplatformbackend/websocket/ConnectionManager.java:64-79 | the loop over a session set is one Send over that set |
| Connections.ConnectionManager.SendMessageToUser | claude-platform-backend/src/main/java/com/proshine/claudeplatformbackend/websocket/ConnectionManager.java:64-72 | a send over the user's set, and a no-op for a user with no set |
| Connections.ConnectionManager.SendMessageToClients | claude-platform-backend/src/main/java/com/proshine/claudeplatformbackend/websocket/ConnectionManager.java:74-79 | a send over the client set |
| Connections.ConnectionManager.SendMessageToSession | claude-platform-backend/src/main/java/com/proshine/claudeplatformbackend/websocket/ConnectionManager.java:81-86 | a send to the one session |
| Connections.ConnectionManager.BroadcastToAllUsers | claude-platform-backend/src/main/java/com/proshine/claudeplatformbackend/websocket/ConnectionManager.java:88-95 | for some enumeration of the user keys, a send over every user's set in that order |
| ConnectorConfig.Validate | claude-connector/internal/config/config.go:104-118 | a configuration is accepted exactly when the URL and token are non-empty and the timeout is positive, and the first failing check decides the error |
| ConnectorConfig.ErrorsIdentifyCheck | claude-connector/internal/config/config.go:105-115 | each error text occurs exactly when its check is the first to fail |
| ConnectorConfig.DefaultsNeedToken | claude-connector/internal/config/config.go:85-115 | the defaults fail on the empty token, and with any token the defaults pass, the timeout of 300 included |
| Conversations.Updated | claude-platform-backend/src/main/java/com/proshine/claudeplatformbackend/service/ConversationService.java:57-67 | an update keeps id, owner and creation time, replaces title and content only when given, and adds only a positive token count |
| Conversations.EmptyUpdateIsIdentity | claude-platform-backend/src/main/java/com/proshine/claudeplatformbackend/service/ConversationService.java:57-67 | an update with nothing given and no positive tokens leaves the conversation as it was |
| Conversations.UpdatesAccumulate | claude-platform-backend/src/main/java/com/proshine/claudeplatformbackend/service/ConversationService.java:63-66 | two token updates add up |
| Conversations.ConversationService.constructor | claude-platform-backend/src/main/java/com/proshine/claudeplatformbackend/service/ConversationService.java:17-21 | the service is wired to its repository and token service |
| Conversations.ConversationService.CreateConversation | claude-platform-backend/src/main/java/com/proshine/claudeplatformbackend/service/ConversationService.java:23-44 | fails when not logged in; succeeds unless a positive token count fails the quota; saves the row with missing tokens as 0 and one usage only for a positive count; any failure leaves both tables unchanged |
| Conversations.ConversationService.UpdateConversation | claude-platform-backend/src/main/java/com/proshine/claudeplatformbackend/service/ConversationService.java:46-70 | fails unless the caller owns the conversation or when the quota rejects the added tokens; on success writes Updated and at most one usage; other conversations never change; failure changes nothing |
| Conversations.ConversationService.GetConversationById | claude-platform-backend/src/main/java/com/proshine/claudeplatformbackend/service/ConversationService.java:90-98 | a conversation is returned only to its owner; otherwise the error is not-logged-in or not-found |
| Conversations.ConversationService.DeleteConversation | claude-platform-backend/src/main/java/com/proshine/claudeplatformbackend/service/ConversationService.java:100-113 | deletes exactly when the caller owns the conversation; otherwise fails with no change |
| DataInit.DefaultAdmin | claude-platform-backend/src/main/java/com/proshine/claudeplatformbackend/service/DataInitService.java:60-72 | the seeded administrator is "admin" with role ROLE_ADMIN, limit 100000 and status ACTIVE |
| DataInit.ArraysAligned | claude-platform-backend/src/main/java/com/proshine/claudeplatformbackend/service/DataInitService.java:94-119 | the key, value and description arrays have six entries each, and the keys are distinct |
| DataInit.SeedAdminCases | claude-platform-backend/src/main/java/com/proshine/claudeplatformbackend/service/DataInitService.java:55-72 | within the transaction the admin is saved exactly when no user has the admin role, the table is otherwise unchanged, and afterwards an admin exists |
| DataInit.SeedAdminKeepsUnique | claude-platform-backend/src/main/java/com/proshine/claudeplatformbackend/entity/User.java:23-26 | with unique usernames and a fresh id, the seeded table keeps usernames unique unless no admin exists and some user is already named "admin", which is exactly when the commit is refused |
| DataInit.SeedAdminIdempotent | claude-platform-backend/src/main/java/com/proshine/claudeplatformbackend/service/DataInitService.java:55-57 | a second admin seeding, whatever fresh id it draws, changes nothing |
| DataInit.SeedUpToFacts | claude-platform-backend/src/main/java/com/proshine/claudeplatformbackend/service/DataInitService.java:121-134 | existing rows are never overwritten, every key is present afterwards, and an absent key gets its row from the aligned arrays |
| DataInit.SeedUpToAddsOnlySeedKeys | claude-platform-backend/src/main/java/com/proshine/claudeplatformbackend/service/DataInitService.java:121-134 | seeding adds no keys other than the six |
| DataInit.SeedUpToPresent | claude-platform-backend/src/main/java/com/proshine/claudeplatformbackend/service/DataInitService.java:122 | when all six keys exist, seeding changes nothing |
| DataInit.SeedConfigsIdempotent | claude-platform-backend/src/main/java/com/proshine/claudeplatformbackend/service/DataInitService.java:121-134 | seeding the configuration twice equals seeding once |
| DataInit.SeededKeysNotRead | claude-platform-backend/src/main/java/com/proshine/claudeplatformbackend/service/DataInitService.java:94-101 | the seeded upper-case keys are not the lower-case keys the readers look up, so after seeding an empty table the per-request token limit still reads its default 1000 |
| DataInit.DataInitService.constructor | claude-platform-backend/src/main/java/com/proshine/claudeplatformbackend/service/DataInitService.java:26-30 | the service is wired to the user and configuration tables |
| DataInit.DataInitService.Run | claude-platform-backend/src/main/java/com/proshine/claudeplatformbackend/service/DataInitService.java:35-47 | one transaction seeds the admin, then the configuration; it commits exactly when the admin's username does not collide, and then both tables are seeded; otherwise both tables are rolled back and start-up fails |
| DataInit.DataInitService.InitAdminUser | claude-platform-backend/src/main/java/com/proshine/claudeplatformbackend/service/DataInitService.java:52-86 | inside the transaction the user table becomes SeedAdmin of the old one; the unique check is deferred to the commit |
| DataInit.DataInitService.InitSystemConfig | claude-platform-backend/src/main/java/com/proshine/claudeplatformbackend/service/DataInitService.java:91-139 | the index loop leaves the configuration table as SeedConfigs of the old one |
| Durations.BetweenBounds | claude-platform-backend/src/main/java/com/proshine/claudeplatformbackend/utils/DateUtil.java:115-131 | for end not before start, the result r is non-negative and r·unit <= end-start < (r+1)·unit |
| Durations.BetweenAntisymmetric | claude-platform-backend/src/main/java/com/proshine/claudeplatformbackend/utils/DateUtil.java:115-131 | swapping the instants negates the result, and equal instants give 0, because the division truncates toward zero |
| Durations.TruncDivMonotone | claude-platform-backend/src/main/java/com/proshine/claudeplatformbackend/utils/DateUtil.java:115-131 | Java's truncating division is monotone in the dividend |
| Durations.BetweenMonotone | claude-platform-backend/src/main/java/com/proshine/claudeplatformbackend/utils/DateUtil.java:115-131 | for a fixed start the result does not decrease as the end grows |
| Durations.UnitsInstances | claude-platform-backend/src/main/java/com/proshine/claudeplatformbackend/utils/DateUtil.java:115-131 | instants less than a minute apart are 0 minutes, 0 hours and 0 days apart |
| Downloads.DetectSystem | claude-platform-backend/src/main/java/com/proshine/claudeplatformbackend/controller/DownloadController.java:26-67 | a null User-Agent is unknown on all fields; the recommended client is unknown exactly when the whole detection is, and macOS goes with the two mac builds, x64 with windows and linux |
| Downloads.GetClientFilename | claude-platform-backend/src/main/java/com/proshine/claudeplatformbackend/controller/DownloadController.java:152-165 | exactly the four platform names, ignoring case, have a file name, which starts with "claude-connector-" |
| Downloads.DetectIgnoresCase | claude-platform-backend/src/main/java/com/proshine/claudeplatformbackend/controller/DownloadController.java:34 | the classification depends only on the lower-cased User-Agent |
| Downloads.WindowsTakesPrecedence | claude-platform-backend/src/main/java/com/proshine/claudeplatformbackend/controller/DownloadController.java:36-39 | a User-Agent naming windows is classified as Windows whatever else it names |
| Downloads.MacBeforeLinux | claude-platform-backend/src/main/java/com/proshine/claudeplatformbackend/controller/DownloadController.java:40-49 | without "windows", "mac os x" gives macOS, with the intel build and arch exactly when "intel" is named and the arm64 build otherwise |
| Downloads.LinuxAfterMac | claude-platform-backend/src/main/java/com/proshine/claudeplatformbackend/controller/DownloadController.java:50-54 | naming neither windows nor mac os x, "linux" gives Linux, x64 and the linux build |
| Downloads.NoSystemNamed | claude-platform-backend/src/main/java/com/proshine/claudeplatformbackend/controller/DownloadController.java:29-54 | a User-Agent naming none of the three systems leaves all three fields unknown |
| Downloads.RecommendedClientHasFile | claude-platform-backend/src/main/java/com/proshine/claudeplatformbackend/controller/DownloadController.java:36-53 | every recommended client other than unknown has a downloadable file, and unknown has none |
| Downloads.FilenamesDistinct | claude-platform-backend/src/main/java/com/proshine/claudeplatformbackend/controller/DownloadController.java:154-161 | two platforms get the same file exactly when their names agree ignoring case |
| Downloads.DownloadClient | claude-platform-backend/src/main/java/com/proshine/claudeplatformbackend/controller/DownloadController.java:70-93 | an unknown platform or missing file is not found, and the file is served exactly when it reads as text, under its client file name |
| Entities.ConversationRepository.FindByIdAndUserId | claude-platform-backend/src/main/java/com/proshine/claudeplatformbackend/repository/ConversationRepository.java:19 | a conversation is found exactly when the id exists and belongs to the user |
| FileNames.IsAllowedFileType | claude-platform-backend/src/main/java/com/proshine/claudeplatformbackend/utils/FileUtil.java:38-55 | a file is allowed exactly when its extension is in the twenty-entry whitelist |
| FileNames.ExtensionEmptyCases | claude-platform-backend/src/main/java/com/proshine/claudeplatformbackend/utils/FileUtil.java:15-24 | the extension is empty exactly for a null or empty name, a name without a dot, or a name ending in a dot |
| FileNames.ExtensionAfterLastDot | claude-platform-backend/src/main/java/com/proshine/claudeplatformbackend/utils/FileUtil.java:19-23 | a non-empty extension is the lower-cased text after the last dot |
| FileNames.ExtensionHasNoDot | claude-platform-backend/src/main/java/com/proshine/claudeplatformbackend/utils/FileUtil.java:19-23 | an extension never contains a dot |
| FileNames.LeadingDotCounts | claude-platform-backend/src/main/java/com/proshine/claudeplatformbackend/utils/FileUtil.java:19-23 | a leading dot counts: ".bashrc" has extension "bashrc" |
| FileNames.ExtensionCaseInsensitive | claude-platform-backend/src/main/java/com/proshine/claudeplatformbackend/utils/FileUtil.java:23 | lower-casing the name does not change its extension |
| FileNames.ExtensionIsLower | claude-platform-backend/src/main/java/com/proshine/claudeplatformbackend/utils/FileUtil.java:23 | an extension is already lower case |
| FileNames.ExtensionOfJoined | claude-platform-backend/src/main/java/com/proshine/claudeplatformbackend/utils/FileUtil.java:29-33 | a dot-free base joined by a dot to a lower-case dot-free extension has that extension |
| FileNames.UniqueFilenameKeepsExtension | claude-platform-backend/src/main/java/com/proshine/claudeplatformbackend/utils/FileUtil.java:29-33 | with a dot-free uuid the generated name has the original's extension, and is the bare uuid when that extension is empty |
| FileNames.AllowedIgnoresCase | claude-platform-backend/src/main/java/com/proshine/claudeplatformbackend/utils/FileUtil.java:38-55 | the whitelist test ignores case and rejects a name with no dot |
| JavaText.ToLower | claude-platform-backend/src/main/java/com/proshine/claudeplatformbackend/utils/FileUtil.java:23 | String.toLowerCase keeps the length and maps each character |
| JavaText.ToLowerIdempotent | claude-platform-backend/src/main/java/com/proshine/claudeplatformbackend/utils/FileUtil.java:23 | lower-casing twice is lower-casing once |
| JavaText.LastIndexOf | claude-platform-backend/src/main/java/com/proshine/claudeplatformbackend/utils/FileUtil.java:19 | String.lastIndexOf gives -1 or a position holding the character with none after it |
| JavaText.Pieces | claude-platform-backend/src/main/java/com/proshine/claudeplatformbackend/websocket/ChatWebSocketHandler.java:88-89 | cutting at a separator gives at least one piece and none contains the separator |
| JavaText.JoinPieces | claude-platform-backend/src/main/java/com/proshine/claudeplatformbackend/websocket/ChatWebSocketHandler.java:88-89 | joining the pieces with the separator gives back the text |
| JavaText.DropTrailingEmpty | claude-platform-backend/src/main/java/com/proshine/claudeplatformbackend/websocket/ChatWebSocketHandler.java:89 | String.split drops exactly the trailing empty pieces |
| JavaText.Split | claude-platform-backend/src/main/java/com/proshine/claudeplatformbackend/websocket/ChatWebSocketHandler.java:88-89 | no piece of a split contains the separator |
| JavaText.SplitAround | claude-platform-backend/src/main/java/com/proshine/claudeplatformbackend/websocket/ChatWebSocketHandler.java:89-90 | "a=b" with separator-free parts and a non-empty b splits into exactly [a, b] |
| JavaText.Trim | claude-platform-backend/src/main/java/com/proshine/claudeplatformbackend/service/ProjectService.java:99-111 | String.trim gives a slice without leading or trailing control or space characters |
| JavaText.TrimIsSlice | claude-platform-backend/src/main/java/com/proshine/claudeplatformbackend/service/ProjectService.java:99 | trim removes characters only at the ends |
| JavaText.CollapseSpaces | claude-platform-backend/src/main/java/com/proshine/claudeplatformbackend/service/ChatService.java:127 | replaceAll of whitespace runs by one space leaves no whitespace run and only plain spaces |
| JavaText.ParseIntegerRoundTrip | claude-platform-backend/src/main/java/com/proshine/claudeplatformbackend/service/SystemService.java:49-71 | parseInt and parseLong read back the decimal text of any value in their range |
| Router.HeartbeatReply | claude-platform-backend/src/main/java/com/proshine/claudeplatformbackend/websocket/MessageHandler.java:83-91 | the heartbeat reply has type heartbeat and the incoming id and user id |
| Router.SentBySend | claude-platform-backend/src/main/java/com/proshine/claudeplatformbackend/websocket/MessageHandler.java:24-49 | the frames a handler path writes are the frames its send delivers |
| Router.HandleExtendsOutbox | claude-platform-backend/src/main/java/com/proshine/claudeplatformbackend/websocket/MessageHandler.java:24-49 | handling a message only appends frames |
| Router.ReplyGoesToSender | claude-platform-backend/src/main/java/com/proshine/claudeplatformbackend/websocket/MessageHandler.java:40-79 | a reply writes at most one frame, to the sender |
| Router.ForwardCarriesMessage | claude-platform-backend/src/main/java/com/proshine/claudeplatformbackend/websocket/MessageHandler.java:93-126 | a forward carries the incoming message unchanged, only to the chosen targets |
| Router.ErrorsGoToSenderOnly | claude-platform-backend/src/main/java/com/proshine/claudeplatformbackend/websocket/MessageHandler.java:24-126 | every error frame goes to the sender with the incoming id, or a fresh one, and changes no table; an unknown type tag is one such error |
| Router.AuthOutcome | claude-platform-backend/src/main/java/com/proshine/claudeplatformbackend/websocket/MessageHandler.java:51-81 | auth writes one frame to the sender, success exactly for a user with a username or for a client; a user registers under the username, a client joins the client set, anything else changes no table |
| Router.ChatRequestForwarded | claude-platform-backend/src/main/java/com/proshine/claudeplatformbackend/websocket/MessageHandler.java:93-99 | a chat request from a user session, with a client present, goes unchanged to every writable client and to nobody else |
| Router.ChatRequestFromNonUserRejected | claude-platform-backend/src/main/java/com/proshine/claudeplatformbackend/websocket/MessageHandler.java:100-107 | a chat request from a non-user session, an unregistered one included, or with no client present only gets an error to the sender |
| Router.ChatResponseRouted | claude-platform-backend/src/main/java/com/proshine/claudeplatformbackend/websocket/MessageHandler.java:110-118 | a chat response from a client with a user id goes to exactly that user's writable sessions |
| Router.ChatResponseBroadcast | claude-platform-backend/src/main/java/com/proshine/claudeplatformbackend/websocket/MessageHandler.java:119-121 | a chat response from a client with no user id goes to every writable session of every user |
| Router.FlattenMembers | claude-platform-backend/src/main/java/com/proshine/claudeplatformbackend/websocket/ConnectionManager.java:88-95 | the broadcast targets are exactly the sessions of the enumerated users |
| Router.HandlePreservesWf | claude-platform-backend/src/main/java/com/proshine/claudeplatformbackend/websocket/MessageHandler.java:24-49 | every handler path keeps the four tables consistent, given that auth comes from a session not yet registered |
| Router.AuthStepPreservesWf | claude-platform-backend/src/main/java/com/proshine/claudeplatformbackend/websocket/MessageHandler.java:51-81 | auth keeps the tables consistent |
| Router.ChatRequestStepPreservesWf | claude-platform-backend/src/main/java/com/proshine/claudeplatformbackend/websocket/MessageHandler.java:93-108 | a chat request keeps the tables consistent |
| Router.ChatResponseStepPreservesWf | claude-platform-backend/src/main/java/com/proshine/claudeplatformbackend/websocket/MessageHandler.java:110-126 | a chat response keeps the tables consistent |
| Router.MessageHandler.constructor | claude-platform-backend/src/main/java/com/proshine/claudeplatformbackend/websocket/MessageHandler.java:15-16 | the handler works on the given connection manager |
| Router.MessageHandler.HandleMessage | claude-platform-backend/src/main/java/com/proshine/claudeplatformbackend/websocket/MessageHandler.java:24-49 | the manager's new state is Handle of the old one; only a heartbeat touches the session's attributes |
| Router.MessageHandler.HandleAuthMessage | claude-platform-backend/src/main/java/com/proshine/claudeplatformbackend/websocket/MessageHandler.java:51-81 | the new state is the auth step of the old one |
| Router.MessageHandler.HandleHeartbeatMessage | claude-platform-backend/src/main/java/com/proshine/claudeplatformbackend/websocket/MessageHandler.java:83-91 | stores the time as lastHeartbeat and sends the heartbeat reply to the sender, with no authentication check |
| Router.MessageHandler.HandleChatRequestMessage | claude-platform-backend/src/main/java/com/proshine/claudeplatformbackend/websocket/MessageHandler.java:93-108 | the new state is the chat-request step of the old one |
| Router.MessageHandler.HandleChatResponseMessage | claude-platform-backend/src/main/java/com/proshine/claudeplatformbackend/websocket/MessageHandler.java:110-126 | the new state is the chat-response step of the old one, for an enumeration of the user keys |
| Router.MessageHandler.SendChatRequestToClient | claude-platform-backend/src/main/java/com/proshine/claudeplatformbackend/websocket/MessageHandler.java:128-135 | sends nothing without a client, and otherwise a chat request to every client |
| Router.MessageHandler.SendChatResponseToUser | claude-platform-backend/src/main/java/com/proshine/claudeplatformbackend/websocket/MessageHandler.java:137-141 | a chat response with the given id and the user id, sent only to that user's sessions |
| Router.MessageHandler.HasAvailableClients | claude-platform-backend/src/main/java/com/proshine/claudeplatformbackend/websocket/MessageHandler.java:143-145 | true exactly when the client set is non-empty |
| Router.MessageHandler.GetConnectionStatus | claude-platform-backend/src/main/java/com/proshine/claudeplatformbackend/websocket/MessageHandler.java:147-153 | reports the two counts, and hasClients exactly when the client count is positive |
| Projects.BranchOf | claude-platform-backend/src/main/java/com/proshine/claudeplatformbackend/service/ProjectService.java:99-103 | a branch exists exactly when the text starts with "ref: refs/heads/", and then it is the remainder |
| Projects.FirstWhere | claude-platform-backend/src/main/java/com/proshine/claudeplatformbackend/service/ProjectService.java:111-120 | the first index in a range satisfying a test, or none when no index does |
| Projects.FindOriginUrl | claude-platform-backend/src/main/java/com/proshine/claudeplatformbackend/service/ProjectService.java:107-121 | the line scan returns OriginUrl of the config text |
| Projects.OriginUrlFirst | claude-platform-backend/src/main/java/com/proshine/claudeplatformbackend/service/ProjectService.java:111-120 | a url is found exactly when some origin-section line has a url line after it, and it is the text after "url = " on the first such pair; a non-url next line does not stop the scan |
| Projects.AnalyzeGitInfo | claude-platform-backend/src/main/java/com/proshine/claudeplatformbackend/service/ProjectService.java:89-129 | a repository flag from the .git probe, the branch from a readable HEAD and the origin url from a readable config; a failing read ends the analysis |
| Projects.BranchRoundTrip | claude-platform-backend/src/main/java/com/proshine/claudeplatformbackend/service/ProjectService.java:97-104 | a HEAD file written as "ref: refs/heads/<b>\n" gives back the branch b |
| Projects.DetachedHeadHasNoBranch | claude-platform-backend/src/main/java/com/proshine/claudeplatformbackend/service/ProjectService.java:99-103 | a detached HEAD holding a commit has no branch |
| Projects.IsTextFile | claude-platform-backend/src/main/java/com/proshine/claudeplatformbackend/service/ProjectService.java:344-358 | a name is a text file exactly when its lower-cased form ends with one of the twenty suffixes |
| Projects.TextFileIgnoresCase | claude-platform-backend/src/main/java/com/proshine/claudeplatformbackend/service/ProjectService.java:351 | the test ignores case |
| Projects.ListedExtensionIsText | claude-platform-backend/src/main/java/com/proshine/claudeplatformbackend/service/ProjectService.java:345-356 | any name ending in a listed suffix, in any case, is a text file |
| Projects.ExtensionOfShape | claude-platform-backend/src/main/java/com/proshine/claudeplatformbackend/service/ProjectService.java:289-292 | an extension exists exactly when a dot follows the first character; it keeps the dot, is a proper suffix and has no other dot |
| Projects.DotFileHasNoExtension | claude-platform-backend/src/main/java/com/proshine/claudeplatformbackend/service/ProjectService.java:185-187 | a dot file without another dot has no extension |
| Projects.ExtensionRulesCompared | claude-platform-backend/src/main/java/com/proshine/claudeplatformbackend/service/ProjectService.java:185-187 | this extension is the other rule's with the dot and without lower-casing; the rules part on dot files |
| Projects.DetermineNodePackageManager | claude-platform-backend/src/main/java/com/proshine/claudeplatformbackend/service/ProjectService.java:207-216 | Yarn exactly when yarn.lock exists, pnpm exactly when only pnpm-lock.yaml does, npm otherwise |
| Projects.FileLanguagesMembers | claude-platform-backend/src/main/java/com/proshine/claudeplatformbackend/service/ProjectService.java:180-196 | a language is collected exactly when some file's extension maps to it |
| Projects.ScanLanguages | claude-platform-backend/src/main/java/com/proshine/claudeplatformbackend/service/ProjectService.java:180-196 | the walk adds exactly the languages of the files' extensions |
| Projects.AnalyzeProjectType | claude-platform-backend/src/main/java/com/proshine/claudeplatformbackend/service/ProjectService.java:134-202 | the framework comes from the first present config file, with its package manager and language; none exactly when no key of the config-file table is present, given that the order lists every key once; the language is null exactly when the set is empty, otherwise one of its members |
| Projects.ToFileInfo | claude-platform-backend/src/main/java/com/proshine/claudeplatformbackend/service/ProjectService.java:278-293 | an entry keeps its name and kind, and only regular files get an extension |
| Projects.CompareStringsAntisymmetric | claude-platform-backend/src/main/java/com/proshine/claudeplatformbackend/service/ProjectService.java:307 | String.compareTo is antisymmetric |
| Projects.CompareStringsTransitive | claude-platform-backend/src/main/java/com/proshine/claudeplatformbackend/service/ProjectService.java:307 | String.compareTo is transitive |
| Projects.CompareEntriesAntisymmetric | claude-platform-backend/src/main/java/com/proshine/claudeplatformbackend/service/ProjectService.java:305-310 | the structure comparator is antisymmetric |
| Projects.CompareEntriesTransitive | claude-platform-backend/src/main/java/com/proshine/claudeplatformbackend/service/ProjectService.java:305-310 | the structure comparator is transitive |
| Projects.InsertSorted | claude-platform-backend/src/main/java/com/proshine/claudeplatformbackend/service/ProjectService.java:305-310 | inserting into a sorted list keeps it sorted |
| Projects.SortStructurePermutes | claude-platform-backend/src/main/java/com/proshine/claudeplatformbackend/service/ProjectService.java:305-310 | sorting permutes the entries |
| Projects.SortStructureSorted | claude-platform-backend/src/main/java/com/proshine/claudeplatformbackend/service/ProjectService.java:305-310 | sorting orders the entries by the comparator |
| Projects.DirectoriesFirst | claude-platform-backend/src/main/java/com/proshine/claudeplatformbackend/service/ProjectService.java:306-308 | in a sorted listing every directory precedes every file |
| Projects.AnalyzeProjectStructure | claude-platform-backend/src/main/java/com/proshine/claudeplatformbackend/service/ProjectService.java:267-313 | the structure is a permutation of the listed, non-excluded, readable entries, sorted directories first and then by name ignoring case |
| RouteGuard.Guard | claude-platform-frontend/src/router/index.js:95-125 | navigation proceeds exactly when the route is open or the user is logged in with admin rights where required, and is not a logged-in visit to the login page; the login redirect happens exactly for a protected route while logged out |
| RouteGuard.MatchKey | claude-platform-frontend/src/router/index.js:89-92 | the table compares the ASCII-lower-cased path with at most one trailing "/" dropped, as the default matcher options do |
| RouteGuard.LoggedOutReachesOnlyLogin | claude-platform-frontend/src/router/index.js:104-108 | logged out, a path proceeds exactly when its match key is /login, so "/LOGIN" and "/login/" proceed too; every other path redirects to /login |
| RouteGuard.AdminPagesNeedAdmin | claude-platform-frontend/src/router/index.js:111-115 | an admin route sends a logged-in non-admin to /dashboard and lets an admin through |
| RouteGuard.LoginPageBounces | claude-platform-frontend/src/router/index.js:119-122 | a logged-in user going to /login is sent to /dashboard |
| RouteGuard.NoRedirectLoop | claude-platform-frontend/src/router/index.js:95-125 | following a redirect never redirects again |
| RouteGuard.SameKeySameDecision | claude-platform-frontend/src/router/index.js:89-125 | two paths with the same match key get the same decision, unless one is the exact /login the bounce compares against |
| RouteGuard.KeyExamples | claude-platform-frontend/src/router/index.js:104-122 | /LOGIN and /login/ open for a logged-out user, /system-settings/ bounces a non-admin, and a logged-in user at /LOGIN is not bounced |
| SystemConfigs.AsInteger | claude-platform-backend/src/main/java/com/proshine/claudeplatformbackend/service/SystemService.java:49-71 | the default for a missing or unparsable value, otherwise the parsed value |
| SystemConfigs.AsBoolean | claude-platform-backend/src/main/java/com/proshine/claudeplatformbackend/service/SystemService.java:73-79 | the default for a missing value, otherwise true exactly when the value equals "true" ignoring case |
| SystemConfigs.AllAsMap | claude-platform-backend/src/main/java/com/proshine/claudeplatformbackend/service/SystemService.java:89-95 | the map has the table's keys, with a null value read as "" |
| SystemConfigs.UpsertQueries | claude-platform-backend/src/main/java/com/proshine/claudeplatformbackend/service/SystemService.java:20-42 | after saving, the key reads the new value; a description is replaced only when given or when the row is new; other rows are untouched |
| SystemConfigs.UpsertKeyed | claude-platform-backend/src/main/java/com/proshine/claudeplatformbackend/service/SystemService.java:20-39 | saving keeps every row under its own key |
| SystemConfigs.UpsertIdempotent | claude-platform-backend/src/main/java/com/proshine/claudeplatformbackend/service/SystemService.java:20-39 | saving the same triple twice is the same as once |
| SystemConfigs.SaveAllQueries | claude-platform-backend/src/main/java/com/proshine/claudeplatformbackend/service/SystemService.java:97-102 | saving a map writes each value, keeps existing descriptions, and touches no other key |
| SystemConfigs.AsIntegerRoundTrip | claude-platform-backend/src/main/java/com/proshine/claudeplatformbackend/service/SystemService.java:49-59 | an int stored as its decimal text reads back as itself |
| SystemConfigs.SaveAllStep | claude-platform-backend/src/main/java/com/proshine/claudeplatformbackend/service/SystemService.java:97-102 | saving the map key by key, in any order, builds the whole upsert |
| SystemConfigs.SystemService.constructor | claude-platform-backend/src/main/java/com/proshine/claudeplatformbackend/service/SystemService.java:17-18 | the service is wired to its table |
| SystemConfigs.SystemService.SaveConfig | claude-platform-backend/src/main/java/com/proshine/claudeplatformbackend/service/SystemService.java:20-39 | the table becomes the upsert of the old one, and the saved row is returned |
| SystemConfigs.SystemService.SaveConfigs | claude-platform-backend/src/main/java/com/proshine/claudeplatformbackend/service/SystemService.java:97-102 | the loop leaves the table as SaveAll of the old one, visiting each key once |
| SystemConfigs.SystemService.DeleteConfig | claude-platform-backend/src/main/java/com/proshine/claudeplatformbackend/service/SystemService.java:104-107 | exactly that key is removed |
| SystemConfigs.SystemService.DefaultsWhenAbsent | claude-platform-backend/src/main/java/com/proshine/claudeplatformbackend/service/SystemService.java:122-144 | with the six keys absent the getters give 5000, 10485760, 24, 1000, 30 and true |
| TokenLedger.UsageCount | claude-platform-backend/src/main/java/com/proshine/claudeplatformbackend/repository/TokenUsageRepository.java:43-44 | a user's usage count is at most the number of rows |
| TokenLedger.UsedInWindowAppend | claude-platform-backend/src/main/java/com/proshine/claudeplatformbackend/repository/TokenUsageRepository.java:21-25 | a new row adds its count to its own user's window sum only when timed inside the window |
| TokenLedger.UsedInTotalAppend | claude-platform-backend/src/main/java/com/proshine/claudeplatformbackend/repository/TokenUsageRepository.java:18-44 | a new row adds its count to its user's total and one to its user's usage count |
| TokenLedger.WindowWithinTotal | claude-platform-backend/src/main/java/com/proshine/claudeplatformbackend/repository/TokenUsageRepository.java:18-25 | with positive counts, the window sum lies between 0 and the total |
| TokenLedger.NoUsagesNoConsumption | claude-platform-backend/src/main/java/com/proshine/claudeplatformbackend/service/TokenService.java:57-65 | a user without rows has consumed 0 in every window and in total, and has no usages |
| TokenLedger.RecordKeepsQuota | claude-platform-backend/src/main/java/com/proshine/claudeplatformbackend/service/TokenService.java:34-36 | a row admitted by the quota check and timed in the window keeps the month's sum within the limit |
| TokenLedger.TokenService.constructor | claude-platform-backend/src/main/java/com/proshine/claudeplatformbackend/service/TokenService.java:20-24 | the service is wired to the user and usage tables |
| TokenLedger.TokenService.CheckTokenAvailable | claude-platform-backend/src/main/java/com/proshine/claudeplatformbackend/service/TokenService.java:87-93 | an unknown user is an error; otherwise true exactly when the month's use plus the request fits the limit |
| TokenLedger.TokenService.GetRemainingTokens | claude-platform-backend/src/main/java/com/proshine/claudeplatformbackend/service/TokenService.java:95-101 | an unknown user is an error; otherwise limit minus the month's use |
| TokenLedger.TokenService.RecordTokenUsage | claude-platform-backend/src/main/java/com/proshine/claudeplatformbackend/service/TokenService.java:26-47 | an unknown user or a request over quota fails and adds nothing; otherwise exactly one row with the given fields is appended |
| Users.NewUser | claude-platform-backend/src/main/java/com/proshine/claudeplatformbackend/service/UserService.java:43-50 | the new row holds the request's fields with the hashed password and status ACTIVE |
| Users.BuildUserInfo | claude-platform-backend/src/main/java/com/proshine/claudeplatformbackend/service/UserService.java:177-195 | the profile copies id, username, real name, email, role, limit, status, creation and last-login time of the row, and remaining plus used tokens is the limit |
| Users.UpdateOnlyGivenFields | claude-platform-backend/src/main/java/com/proshine/claudeplatformbackend/service/UserService.java:88-99 | an update overwrites exactly the non-null request fields and never id, username, password, role or creation time |
| Users.UpdateIdempotent | claude-platform-backend/src/main/java/com/proshine/claudeplatformbackend/service/UserService.java:88-99 | applying an update twice is applying it once, and an empty update changes nothing |
| Users.EmailConflictCases | claude-platform-backend/src/main/java/com/proshine/claudeplatformbackend/service/UserService.java:82-86 | keeping one's own email is never a conflict, and a new email held by another user is one |
| Users.UserService.constructor | claude-platform-backend/src/main/java/com/proshine/claudeplatformbackend/service/UserService.java:22-29 | the service is wired to the user table and the token service |
| Users.UserService.CreateUser | claude-platform-backend/src/main/java/com/proshine/claudeplatformbackend/service/UserService.java:31-55 | a taken username or non-null email fails and saves nothing; with both free it succeeds, and the new row is saved under the fresh id |
| Users.UserService.GetUserById | claude-platform-backend/src/main/java/com/proshine/claudeplatformbackend/service/UserService.java:62-66 | an unknown id fails with "用户不存在"; otherwise every copied field of that row with the month's use and the remaining tokens |
| Users.UserService.GetCurrentUserProfile | claude-platform-backend/src/main/java/com/proshine/claudeplatformbackend/service/UserService.java:68-74 | not logged in fails with "用户未登录"; for a logged-in caller the result is GetUserById of the caller's id, so an unknown user fails with "用户不存在" |
| Users.UserService.UpdateUser | claude-platform-backend/src/main/java/com/proshine/claudeplatformbackend/service/UserService.java:76-103 | an unknown id or conflicting email fails with no change; a known id without a conflict succeeds, and only the given fields of that row are written |
| Users.UserService.ChangePassword | claude-platform-backend/src/main/java/com/proshine/claudeplatformbackend/service/UserService.java:105-123 | fails with no change when not logged in, unknown, or when the current password does not match; with a match it succeeds, and only the password hash changes |
| Users.UserService.ResetPassword | claude-platform-backend/src/main/java/com/proshine/claudeplatformbackend/service/UserService.java:125-132 | an unknown id fails with no change; otherwise only that row's password hash changes |
| Users.UserService.UpdateUserStatus | claude-platform-backend/src/main/java/com/proshine/claudeplatformbackend/service/UserService.java:134-141 | an unknown id fails with no change; otherwise only that row's status changes |
| Users.UserService.UpdateTokenLimit | claude-platform-backend/src/main/java/com/proshine/claudeplatformbackend/service/UserService.java:143-150 | an unknown id fails with no change; otherwise only that row's limit changes |
| Users.UserService.AddExtraToken | claude-platform-backend/src/main/java/com/proshine/claudeplatformbackend/service/UserService.java:152-159 | an unknown id fails with no change; otherwise the limit grows by exactly the extra tokens |
| Users.UserService.DeleteUser | claude-platform-backend/src/main/java/com/proshine/claudeplatformbackend/service/UserService.java:161-167 | an unknown id fails with no change; otherwise exactly that row is removed |
| Transport.FindTokenFirst | claude-platform-backend/src/main/java/com/proshine/claudeplatformbackend/websocket/ChatWebSocketHandler.java:87-94 | a token is found exactly when some parameter splits into the two parts "token" and a value, and then it is the value of the first such parameter |
| Transport.EmptyTokenValueIgnored | claude-platform-backend/src/main/java/com/proshine/claudeplatformbackend/websocket/ChatWebSocketHandler.java:89-91 | "token=" splits into one part and gives no token |
| Transport.ThreePartTokenIgnored | claude-platform-backend/src/main/java/com/proshine/claudeplatformbackend/websocket/ChatWebSocketHandler.java:89-91 | "token=a=b" splits into three parts and gives no token |
| Transport.PlainTokenFound | claude-platform-backend/src/main/java/com/proshine/claudeplatformbackend/websocket/ChatWebSocketHandler.java:87-94 | "token=t" gives t |
| Transport.DecodeFailureAnswered | claude-platform-backend/src/main/java/com/proshine/claudeplatformbackend/websocket/ChatWebSocketHandler.java:54-63 | a frame that does not decode gets one error with a fresh id, sent only to the sender, and never reaches the message handler |
| Transport.GetTokenFromSession | claude-platform-backend/src/main/java/com/proshine/claudeplatformbackend/websocket/ChatWebSocketHandler.java:82-99 | the loop returns the first token parameter, and null for a null URI or query |
| Transport.ConnectUsername | claude-platform-backend/src/main/java/com/proshine/claudeplatformbackend/websocket/ChatWebSocketHandler.java:32-38 | the username attribute is set only for a present token the JWT oracle accepts |
| Transport.ChatWebSocketHandler.constructor | claude-platform-backend/src/main/java/com/proshine/claudeplatformbackend/websocket/ChatWebSocketHandler.java:16-20 | the handler shares its message handler's connection manager |
| Transport.ChatWebSocketHandler.AfterConnectionEstablished | claude-platform-backend/src/main/java/com/proshine/claudeplatformbackend/websocket/ChatWebSocketHandler.java:28-44 | sets the username from a valid token, and always sends the welcome success |
| Transport.ChatWebSocketHandler.HandleMessage | claude-platform-backend/src/main/java/com/proshine/claudeplatformbackend/websocket/ChatWebSocketHandler.java:47-63 | a decoded text frame goes to the message handler, a failed decode gets an error, other frames are ignored |
| Transport.ChatWebSocketHandler.HandleTransportError | claude-platform-backend/src/main/java/com/proshine/claudeplatformbackend/websocket/ChatWebSocketHandler.java:66-69 | the session is removed from the tables |
| Transport.ChatWebSocketHandler.AfterConnectionClosed | claude-platform-backend/src/main/java/com/proshine/claudeplatformbackend/websocket/ChatWebSocketHandler.java:72-75 | the session is removed; after a transport error, the second removal changes nothing |
| ChatFlow.SimulateResponse | claude-platform-backend/src/main/java/com/proshine/claudeplatformbackend/service/ChatService.java:111-115 | the fixed prefix, then the first min(100, length) characters, then "..." exactly when the message is longer than 100 |
| ChatFlow.EstimateTokenUsage | claude-platform-backend/src/main/java/com/proshine/claudeplatformbackend/service/ChatService.java:117-122 | the estimate is between 0 and a quarter of the combined length, and at most one below it |
| ChatFlow.GenerateConversationTitle | claude-platform-backend/src/main/java/com/proshine/claudeplatformbackend/service/ChatService.java:124-128 | a title has at most 53 characters |
| ChatFlow.TitleCut | claude-platform-backend/src/main/java/com/proshine/claudeplatformbackend/service/ChatService.java:126 | the cut text has at most 53 characters |
| ChatFlow.TitleShape | claude-platform-backend/src/main/java/com/proshine/claudeplatformbackend/service/ChatService.java:124-128 | a title has no whitespace runs and no leading or trailing whitespace |
| ChatFlow.TitleOfShortWord | claude-platform-backend/src/main/java/com/proshine/claudeplatformbackend/service/ChatService.java:124-128 | a message of at most 50 non-space characters is its own title |
| ChatFlow.UserEntry | claude-platform-backend/src/main/java/com/proshine/claudeplatformbackend/service/ChatService.java:172-178 | the user entry has role user and the request text, and a files list exactly when there were file contents |
| ChatFlow.AssistantEntry | claude-platform-backend/src/main/java/com/proshine/claudeplatformbackend/service/ChatService.java:182-186 | the assistant entry has role assistant, the reply and no files |
| ChatFlow.BuildConversationContent | claude-platform-backend/src/main/java/com/proshine/claudeplatformbackend/service/ChatService.java:130-159 | new content holds exactly two entries, the user's then the assistant's |
| ChatFlow.FileContentsConcat | claude-platform-backend/src/main/java/com/proshine/claudeplatformbackend/service/ChatService.java:52-65 | collecting over two id lists in turn is collecting over their concatenation |
| ChatFlow.FileContentsShape | claude-platform-backend/src/main/java/com/proshine/claudeplatformbackend/service/ChatService.java:52-65 | at most one content per id, each starting with the file label |
| ChatFlow.AttachmentsConcat | claude-platform-backend/src/main/java/com/proshine/claudeplatformbackend/service/ChatService.java:71-74 | each content is followed by a blank line, in order |
| ChatFlow.FullMessageStartsWithMessage | claude-platform-backend/src/main/java/com/proshine/claudeplatformbackend/service/ChatService.java:68-76 | the full message starts with the request text |
| ChatFlow.FullMessageAppend | claude-platform-backend/src/main/java/com/proshine/claudeplatformbackend/service/ChatService.java:68-76 | one more content adds exactly that content and a blank line at the end |
| ChatFlow.EstimateIsPositive | claude-platform-backend/src/main/java/com/proshine/claudeplatformbackend/service/ChatService.java:80-81 | the simulated exchange is always estimated at 5 tokens or more, so a usage record is always written |
| ChatFlow.CollectFileContents | claude-platform-backend/src/main/java/com/proshine/claudeplatformbackend/service/ChatService.java:52-65 | the loop collects the contents of the ids whose file exists, in order, and nothing for a null list |
| ChatFlow.BuildFullMessage | claude-platform-backend/src/main/java/com/proshine/claudeplatformbackend/service/ChatService.java:68-76 | the builder loop produces the full message: the text alone without contents, otherwise text, header and each content followed by a blank line |
| ChatFlow.AppendToConversationContent | claude-platform-backend/src/main/java/com/proshine/claudeplatformbackend/service/ChatService.java:161-195 | the existing entries are kept in order and exactly two are appended, user then assistant; missing or unreadable content starts afresh |
| ChatFlow.ChatService.constructor | claude-platform-backend/src/main/java/com/proshine/claudeplatformbackend/service/ChatService.java:23-33 | the service is wired to conversation, token and configuration services |
| ChatFlow.ChatService.ProcessChat | claude-platform-backend/src/main/java/com/proshine/claudeplatformbackend/service/ChatService.java:38-109 | not logged in, an unknown user (with the ledger's error text) or over quota fails and changes no table; for a known user success holds exactly when both quota checks pass and the conversation is new or the caller's own; on success the reply and estimate are returned and a conversation is created, with a generated title when none is given, or appended to when the caller owns it |
| ChatFlow.ChatService.StartConversation | claude-platform-backend/src/main/java/com/proshine/claudeplatformbackend/service/ChatService.java:84-94 | succeeds exactly when the user is known and the estimate fits the quota; creates the conversation with the title and new content, or changes nothing on failure |
| ChatFlow.ChatService.ContinueConversation | claude-platform-backend/src/main/java/com/proshine/claudeplatformbackend/service/ChatService.java:95-101 | succeeds exactly when the caller owns the conversation and the estimate fits the quota; appends to it, or changes nothing on failure |

The registry query functions `ConnectionManager.SessionsOf`, `UserConnectionCount`, `HasUserConnections`, `HasClientConnections`, `UserIdBySession` and `SessionType` model `ConnectionManager.java:118-141`. `UserService.CheckUsernameExists`, `GetActiveUserCount` and `ConversationService.GetUserConversationCount` model the repository counts at `UserRepository.java:18,29` and `ConversationRepository.java:30-31`. The `SystemService` getters model `SystemService.java:41-95,109-111,122-144`. These functions have no contract of their own. The lemmas in the table state their properties.

The following specification functions also have no contract of their own; the methods and lemmas in the table state their properties:

- `FileNames.GetFileExtension` and `GenerateUniqueFilename` model `utils/FileUtil.java:15-33`.
- `Durations.MinutesBetween`, `HoursBetween` and `DaysBetween` model `utils/DateUtil.java:115-131`.
- `Connections.AddUser`, `AddClient` and `Remove` model `websocket/ConnectionManager.java:30-62`. `Send`, `Delivered` and `EvictFailed` model `websocket/ConnectionManager.java:64-107`.
- `Router.Handle` models `websocket/MessageHandler.java:24-49`. `AuthStep` models lines 51-81, `ChatRequestStep` lines 93-108 and `ChatResponseStep` lines 110-126 of that file.
- `Projects.GitBranch` models `service/ProjectService.java:97-104` and `OriginUrl` lines 106-121. `ExtensionOf` models lines 289-292, and `CompareEntries` and `SortStructure` lines 305-310.
- `SystemConfigs.Upsert` models `service/SystemService.java:21-39` and `SaveAll` lines 98-102.
- `Users.ApplyUpdate` models `service/UserService.java:88-99`.
- `DataInit.SeedAdmin` models `service/DataInitService.java:52-86` and `SeedConfigs` lines 121-134. `UniqueUsernames` and `CommitRefused` model the unique username column at `entity/User.java:25` as `run`'s transaction (`service/DataInitService.java:35-47`) meets it.
- `TokenLedger.UsedInWindow` models `repository/TokenUsageRepository.java:21-25` and `TokenService.MonthlyUsedTokens` `service/TokenService.java:49-60`.

## Left out

**Runtime and libraries**
- Concurrency. The `ConcurrentHashMap` and `CopyOnWriteArraySet` tables are modelled as sequential, atomic updates. Sending while another thread iterates is not modelled.
- JSON. Jackson encoding and decoding (`convertToJson`, `readValue`, `ObjectMapper` in `ChatService`) are not modelled.
  - Message payloads are records, and a decode failure is a `Failure` carrying the exception's message.
  - Conversation content is a `Content` value: a document, optionally with a `messages` list, or unreadable text.
  - Encoding is assumed never to fail, so `buildConversationContent`'s fallback to an empty message list is not modelled.
  - When `appendToConversationContent` cannot read the stored content, that content is the `Unreadable` case and a fresh two-entry document is built.
- JWT and password hashing.
  - JWT validation (`JwtTokenProvider`) is a map from valid tokens to usernames.
  - `PasswordEncoder` is an opaque pair of functions, `encode` and `matches`.
- Iteration order. The order of Java `HashMap` and set iteration is a ghost out-parameter.
  - `analyzeProjectType` takes the order of `CONFIG_FILES` as a parameter.
  - The language `iterator().next()` picks is only required to be a member of the set.
- Sort stability. `List.sort` is modelled as an insertion sort. The model proves that its result is sorted and a permutation of its input, but not that equal entries keep their order.
- Character sets. Case folding is ASCII only, and `compareToIgnoreCase` is a comparison of the ASCII-lower-cased texts. `parseInt` and `parseLong` accept ASCII digits only, so other Unicode decimal digits, such as fullwidth ones, give the default. A Dafny `char` stands for one Java UTF-16 `char`.
- Integer width. Token sums and tokens-plus-request are unbounded integers, and the `intValue` truncation of sums is not modelled: Java `int` and `long` overflow is assumed not to happen. `DateUtil`'s millisecond difference is unbounded as well. The division is Java's truncating division, written out.
- Clock and randomness. The clock, the UUIDs and the month's window are parameters.
  - The id-taking operations require a fresh id: `UserService.CreateUser`, `ConversationService.CreateConversation` and `ChatService.ProcessChat`.
  - The `DateUtil` clock, formatting and time-zone functions are not modelled.
- Database behaviour. Key comparison is exact, so a case-insensitive database collation is not modelled.
  - Of the unique constraints, only the one on `username` is modelled, and only where `initAdminUser` saves without checking it first. The model follows Hibernate's deferred insert for an assigned id. Whether the violation surfaces at a flush inside `initSystemConfig`'s loop or at commit is not distinguished, because the transaction rolls back and `run` fails in both cases.
  - Other database failures are not modelled. The catches of `initAdminUser` and `initSystemConfig` (`DataInitService.java:83-85,136-138`) therefore have no modelled path of their own.
  - The `updatedTime` columns of users, conversations and configuration rows are left out. Their `@PrePersist` and `@PreUpdate` hooks set them on every save. No modelled operation reads them.
- Transactions. The `@Transactional` rollback of `createConversation`, `updateConversation` and `processChat` when the usage record throws is modelled as leaving both tables as they were. The `UnexpectedRollbackException` that Spring would raise is not modelled.
- The case where the same session key is registered as a user and then as a client is modelled as the code behaves (see `Connections.UserThenClientLeaks`). The consistency lemmas assume that it does not happen.

**Operations not modelled**
- `FileUtil.formatFileSize` uses floating point.
- The `FileUtil` directory, delete and cleanup functions (`FileUtil.java:80-146`) are disk I/O.
- `FileService` is disk I/O. `processChat` sees it as one lookup per file id: a file that is missing or cannot be read contributes nothing. The logging of read errors is not modelled.
- In `ProjectService`:
  - `analyzeFileStatistics` and `analyzeConfigFiles` are directory walks and line counting.
  - `analyzeProject`'s path validation and assembly depend on the filesystem.
  - Existence probes and file contents are parameters to the modelled parts.
- `DownloadController.checkConnection` and `getClientVersions` are HTTP plumbing and static data.
- The connector's `Load` reads files through viper, and `setDefaults` mutates viper's global state. Only the default values are modelled, as `ConnectorConfig.DEFAULTS`. The log path is joined with the Unix separator.
- The router guard's `document.title` and `ElMessage` are side effects. The route table's merged meta is assumed to be already applied.
- Route matching. Apart from ASCII case and one trailing "/", percent-encoding and the other features of the path parser are not modelled.
- Paging, keyword search, time ranges, daily and type statistics (`TokenService.java:67-85`), `getUsers`, `getUserConversations`, `searchConversations`, the conversation token sums, `getAllConfigs` and `getConfig`'s whole-row listing are database reporting with no logic of their own.
- The bean-validation annotations on the request types are not modelled. `CreateUserRequest.java` is not part of this model, so the creation request's fields are taken from `UserService`'s use of them.
- Admin uniqueness is not an invariant. `DataInit.SeedAdminCases` states when an admin exists after seeding, but not that only one does.

**Contracts stated weaker than the source**
- ChatFlow.ChatService.ProcessChat: an exception inside the conversation or ledger calls is a `Failure` result turned into the error response. The model does not distinguish the exception types.
