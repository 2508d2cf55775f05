# Petition and contestation front-end — a Dafny model

This project models the core of the web client of a legal-defence assistant. A company user
uploads a plaintiff's initial petition (a PDF) together with supporting documents. The user
then asks the server to generate a contestation and follows the processing on a history page.
The generated contestation is read, rendered from its markdown, downloaded as a DOCX together
with a strategic report, and discussed with a chat assistant. A dashboard summarises the
petitions, and an application frame with a collapsible sidebar and a light/dark theme holds
it all.

The model takes each part in the form the code has:

- **`Endpoints`** is the API layer. Each call is a request descriptor: method, path, query,
  body, content type, and whether the response is read as a blob. Paths that embed an id are
  proved to carry exactly that id. The chat bodies are proved to decode back to the message
  and history they were built from.
- **`Text`** and **`Decimal`** hold the JavaScript string primitives the components use:
  `trim`, `split` on one character, `join`, `slice` with negative indices, truthiness, `||`
  as a default. It also holds the decimal rendering of an integer inside a template literal.
- **`Markdown`** is the contestation page's line formatter. A leading header marker is
  removed, and the line is split with the capturing emphasis regular expression, written
  out as a matcher. Each part is then shown either verbatim or as emphasis.
- **`Conversation`**, **`Chat`** and **`MiniChat`** are the two chat components. The page
  chat is a class with its history, input and pending flag. The contestation chat is a
  panel class that writes through a `ChatStore` owned by its page, which is how the source
  lifts that state.
- **`ContestationDetail`**, **`History`**, **`UploadPetition`**, **`Dashboard`** and
  **`Layout`** are the pages and the frame. Each is a class whose fields are the
  component's state variables. Its methods are the event handlers and effects. An
  asynchronous handler is split in two: the method that runs up to the request returns the
  request it sends, and a `Finish…` method takes the outcome. What the page shows is a pure
  `View` function of the state.

Behaviour of the code that the model keeps, and which may be unexpected:

- The history page has one `generatingId` for the whole table. Any generation that finishes
  clears it, even while another row's generation is still running.
- A failed download on the contestation page sets the page-level `error`. That error
  replaces the whole page with the error screen.
- The contestation chat's history and its `initialized` flag survive a change of route.
  Switching between the two layouts mounts a new panel, so the panel's input and `open`
  flag start afresh.
- Dropping a file checks that it is a PDF. Choosing it through the hidden file input does
  not; only the picker's `.pdf` filter limits it.
- Removing the chosen petition keeps the title suggested from its name.
- Supporting-file descriptions travel as one comma-joined field. A comma inside a
  description cannot be told apart from a separator (`CommaIsAmbiguous`).
- Each chat request carries the history as it was before the new question.

## Model

| member | source | states |
|---|---|---|
| Options.Option.GetOr | src/pages/History.tsx:23 | the value when present, the default otherwise |
| Text.OrElse | src/components/Layout.tsx:31 | the `or` default: the value when truthy, the fallback otherwise |
| Text.Truthy | src/pages/ContestationDetail.tsx:196 | JavaScript truthiness of an optional string: present and non-empty; a definition with no contract of its own, used by `OrElse`, `Render` and the report button |
| Text.Trim | src/pages/Chat.tsx:26 | the trimmed text is a slice of the text with only whitespace cut off on either side and non-whitespace at both ends; it is empty exactly when the text is blank |
| Text.IsBlank | src/pages/ContestationDetail.tsx:83 | every character is whitespace; a definition with no contract of its own, tied to `trim() === ''` by the last clause of `Text.Trim` |
| Text.StartsWith | src/pages/ContestationDetail.tsx:93 | `startsWith`: the prefix is the leading slice; a definition with no contract of its own |
| Text.EndsWith | src/pages/ContestationDetail.tsx:93 | `endsWith`: the suffix is the trailing slice; a definition with no contract of its own |
| Text.Split | src/pages/ContestationDetail.tsx:81 | `split('\n')`: pieces free of the separator whose join is the text, one more piece than separators |
| Text.Join | src/pages/UploadPetition.tsx:66 | `join(sep)`: the pieces with one separator between neighbours; no contract of its own, its meaning is stated by `Text.SplitJoin` and `Text.CountJoin` |
| Text.SplitJoin | src/pages/UploadPetition.tsx:66 | splitting undoes joining when there is at least one piece and no piece holds the separator |
| Text.CountJoin | src/pages/UploadPetition.tsx:66 | joining n pieces adds n - 1 separators to those the pieces hold |
| Text.Slice | src/pages/ContestationDetail.tsx:94 | `slice(start, end)`: the span between the two clamped indices when the start is before the end, otherwise empty; `slice(a, -b)` drops `b` characters from the end |
| Text.Clamp | src/pages/ContestationDetail.tsx:94 | a non-negative index is capped at the length; a negative one counts from the end, and one beyond the start gives 0 |
| Decimal.Show | src/api/endpoints.ts:25 | `${id}`: a non-empty text, starting with `-` exactly for negative numbers |
| Decimal.Parse | src/api/endpoints.ts:25 | reading an integer back from canonical decimal text, sign included |
| Decimal.ParseShow | src/api/endpoints.ts:25 | the rendered id reads back as the id |
| Decimal.ShowParse | src/api/endpoints.ts:25 | canonical decimal text is the rendering of what it reads as |
| Decimal.ShowInjective | src/api/endpoints.ts:25 | different ids render differently |
| Endpoints.ErrorText | src/pages/History.tsx:84 | the server's `detail` when present and non-empty, else the fallback |
| Endpoints.Page | src/api/endpoints.ts:23-24 | the `skip`/`limit` query with defaults 0 and 20 |
| Endpoints.IdPath | src/api/endpoints.ts:25 | the built path is the prefix, the id's decimal text and the suffix |
| Endpoints.EmbedsParses | src/api/endpoints.ts:25 | the server reads the id back from such a path |
| Endpoints.EmbedsOne | src/api/endpoints.ts:25-26 | a path embeds a single id |
| Endpoints.IdPathInjective | src/api/endpoints.ts:25-34 | paths built for different ids differ |
| Endpoints.Fields | src/api/endpoints.ts:11-14 | one string member per key, in order |
| Endpoints.LookupFields | src/api/endpoints.ts:11-14 | each distinct key finds its own value in the body |
| Endpoints.Register | src/api/endpoints.ts:11-12 | POST `/auth/register` whose JSON body carries company, user name, email and password under their keys |
| Endpoints.Login | src/api/endpoints.ts:13-14 | POST `/auth/login` whose body carries email and password |
| Endpoints.MeRequest | src/api/endpoints.ts:15 | the session request is a plain GET of /auth/me without body, query or blob |
| Endpoints.Upload | src/api/endpoints.ts:19-22 | POST `/petitions/` with the form as a multipart body |
| Endpoints.ListPetitions | src/api/endpoints.ts:23-24 | GET `/petitions/` with the paging query |
| Endpoints.GetPetition | src/api/endpoints.ts:25 | GET of `/petitions/<id>`, without body |
| Endpoints.DeletePetition | src/api/endpoints.ts:26 | DELETE of `/petitions/<id>`, without body |
| Endpoints.Generate | src/api/endpoints.ts:30-31 | POST `/contestations/generate/<petitionId>`, without body |
| Endpoints.ListContestations | src/api/endpoints.ts:32-33 | GET `/contestations/` with the paging query |
| Endpoints.GetContestation | src/api/endpoints.ts:34 | GET of `/contestations/<id>` |
| Endpoints.DownloadContestation | src/api/endpoints.ts:35-47 | a blob GET of `/contestations/<id>/download`, saved as `contestacao_<id>.docx` unless a name is given |
| Endpoints.DownloadReport | src/api/endpoints.ts:48-60 | a blob GET of `/contestations/<id>/download-report`, saved as `relatorio_estrategico_<id>.docx` unless a name is given |
| Endpoints.DashboardEndpoints | src/api/endpoints.ts:72-74 | the three dashboard requests are plain GETs of three different paths |
| Endpoints.HistoryJson | src/api/endpoints.ts:83-84 | the history as a JSON array, one object per message, in order |
| Endpoints.SendMessage | src/api/endpoints.ts:83-84 | POST `/chat/` whose body decodes back to the message and the history |
| Endpoints.SendContestationMessage | src/api/endpoints.ts:85-90 | POST `/chat/contestation` whose body decodes back to the contestation id, the message and the history |
| Endpoints.Lookup | src/api/endpoints.ts:85-90 | a key is found exactly when some member has it |
| Endpoints.MessageRoundTrip | src/api/endpoints.ts:77-80 | a message decodes from its JSON object |
| Endpoints.ItemsRoundTrip | src/api/endpoints.ts:83-84 | an array of encoded messages decodes to those messages |
| Endpoints.HistoryRoundTrip | src/api/endpoints.ts:83-84 | the history a request carries is the one it was built from |
| Endpoints.ChatRoundTrip | src/api/endpoints.ts:83-84 | the `{ message, history }` body decodes to its parts |
| Endpoints.ContestationChatRoundTrip | src/api/endpoints.ts:85-90 | the `{ contestation_id, message, history }` body decodes to its parts |
| Endpoints.LookupSkip | src/api/endpoints.ts:85-90 | a member with another key is skipped |
| Markdown.HashRun | src/pages/ContestationDetail.tsx:86 | the maximal run of `#` at the start of a line |
| Markdown.StripHeader | src/pages/ContestationDetail.tsx:86 | `replace(/^#{1,5}\s+/, '')` leaves a suffix of the line |
| Markdown.StripHeaderRemovesMarker | src/pages/ContestationDetail.tsx:86 | wherever the marker matches, exactly the matched prefix goes |
| Markdown.StripHeaderOnlyMarker | src/pages/ContestationDetail.tsx:86 | whenever something goes, the marker matched exactly what went |
| Markdown.StripHeaderOnHeaders | src/pages/ContestationDetail.tsx:86 | one to five hashes then whitespace are removed with all of that whitespace |
| Markdown.StripHeaderKeepsOthers | src/pages/ContestationDetail.tsx:86 | no space after the hashes, indentation before them, or six hashes leave the line as it is |
| Markdown.CloseDouble | src/pages/ContestationDetail.tsx:89 | the lazy `.*?\*\*` ends at a `**` |
| Markdown.CloseSingle | src/pages/ContestationDetail.tsx:89 | the lazy `.*?\*` ends at a `*` |
| Markdown.CloseDoubleLazy | src/pages/ContestationDetail.tsx:89 | the text before the closing `**` crosses no line terminator and no earlier `**` |
| Markdown.CloseSingleLazy | src/pages/ContestationDetail.tsx:89 | the text before the closing `*` crosses no line terminator and no `*` |
| Markdown.MatchAt | src/pages/ContestationDetail.tsx:89 | the alternation matches only at a `*` and spans at least two characters |
| Markdown.MatchIsToken | src/pages/ContestationDetail.tsx:89 | what the alternation matches is a `**…**` or `*…*` token |
| Markdown.SplitFrom | src/pages/ContestationDetail.tsx:89 | the capturing-split scan itself; no contract of its own, its meaning is stated by the five `SplitFrom…` lemmas below |
| Markdown.SplitFromOdd | src/pages/ContestationDetail.tsx:89 | the split yields text, match, text, …, text |
| Markdown.SplitFromConcat | src/pages/ContestationDetail.tsx:89 | the parts concatenate back to the line |
| Markdown.SplitFromTokens | src/pages/ContestationDetail.tsx:89 | the parts at odd positions are the matches |
| Markdown.SplitEmphasis | src/pages/ContestationDetail.tsx:89 | the capturing split: odd number of parts, concatenating to the line, matches at odd positions; no match starts inside a text part, and each token is the match found where it starts |
| Markdown.SplitFromTexts | src/pages/ContestationDetail.tsx:89 | the search passes a position only when no match starts there, so no text part holds a match start |
| Markdown.SplitFromMatches | src/pages/ContestationDetail.tsx:89 | each token is exactly the match the alternation finds at the token's offset in the line |
| Markdown.ClassifyPart | src/pages/ContestationDetail.tsx:93-99 | a part is kept verbatim exactly when it does not both start and end with `*`; otherwise the emphasis holds the part without its `**` pair (or its `*` pair when it does not start and end with `**`), and it is empty when the part is too short to hold both markers |
| Markdown.TokenIsStrong | src/pages/ContestationDetail.tsx:89-99 | every match becomes emphasis holding exactly the text between its markers |
| Markdown.RenderParts | src/pages/ContestationDetail.tsx:92-100 | one segment per part, in order |
| Markdown.RenderLine | src/pages/ContestationDetail.tsx:81-103 | a blank line becomes a break, any other a paragraph |
| Markdown.Render | src/pages/ContestationDetail.tsx:78-104 | the placeholder exactly for a missing or empty text, otherwise one block per line |
| Markdown.RenderLines | src/pages/ContestationDetail.tsx:81 | each line rendered on its own, in order |
| Markdown.RenderFollowsLines | src/pages/ContestationDetail.tsx:81-89 | the lines rendered join back to the text; each paragraph comes from parts that spell the line without its marker |
| Markdown.ParagraphSegments | src/pages/ContestationDetail.tsx:86-99 | in a paragraph, every match is emphasis, and the match is that text inside its markers |
| Markdown.RenderMarkup | src/pages/ContestationDetail.tsx:89-99 | writing a simple paragraph out with `**` and rendering it gives the paragraph back |
| Markdown.PlainRendersPlain | src/pages/ContestationDetail.tsx:99 | text without asterisks stays verbatim |
| Markdown.DoubleRendersStrong | src/pages/ContestationDetail.tsx:93-94 | `**x**` renders as emphasis holding `x` |
| Markdown.SingleRendersStrong | src/pages/ContestationDetail.tsx:96-97 | `*y*` renders as emphasis holding `y` |
| Markdown.UnclosedDouble | src/pages/ContestationDetail.tsx:89-97 | in `**a`, the two asterisks match the second alternative and render as empty emphasis |
| Markdown.LoneAsterisk | src/pages/ContestationDetail.tsx:96-97 | a lone `*` is no match, yet renders as empty emphasis |
| Markdown.HeaderAndEmphasis | src/pages/ContestationDetail.tsx:78-104 | `# T` then `**a** or *b*` renders as a plain paragraph and a paragraph with two emphases |
| Markdown.RenderAlternating | src/pages/ContestationDetail.tsx:92-100 | plain text and the two kinds of emphasis render as the segments they spell |
| Conversation.Accepts | src/pages/Chat.tsx:26 | a send goes ahead exactly when the input is not blank and no reply is pending |
| Conversation.Question | src/pages/Chat.tsx:28 | the user's message holds the trimmed input |
| Conversation.Answer | src/pages/Chat.tsx:36-45 | the assistant's message holds the reply, or the apology when the request failed |
| Conversation.AlternatesAppend | src/pages/Chat.tsx:28-45 | appending the expected next message keeps questions and answers alternating |
| Chat.ChatPage.constructor | src/pages/Chat.tsx:9-13 | an empty history, empty input, nothing pending |
| Chat.ChatPage.SetInput | src/pages/Chat.tsx:99 | only the input changes |
| Chat.ChatPage.Send | src/pages/Chat.tsx:24-35 | an accepted send appends the question, clears the input, marks a reply pending and posts the message with the earlier history; otherwise nothing changes and nothing is sent; the alternation invariant is kept |
| Chat.ChatPage.Finish | src/pages/Chat.tsx:36-48 | the reply or the apology is appended and nothing is pending; the invariant is kept |
| MiniChat.ChatStore.constructor | src/pages/ContestationDetail.tsx:37-38 | the lifted history starts empty and uninitialised |
| MiniChat.Opening | src/components/MiniChat.tsx:36-48 | the first message is the report when there is one, the greeting otherwise |
| MiniChat.Panel.constructor | src/components/MiniChat.tsx:20-31 | a panel starts closed, with empty input and nothing pending |
| MiniChat.Panel.Visible | src/components/MiniChat.tsx:36 | an inline panel is always visible, a floating one exactly while it is open |
| MiniChat.Panel.Seed | src/components/MiniChat.tsx:35-52 | the first time a panel is visible, the history becomes the opening message and is marked initialised; otherwise nothing changes |
| MiniChat.Panel.ToggleOpen | src/components/MiniChat.tsx:173 | the floating button flips `open`, then the seeding effect runs |
| MiniChat.Panel.Close | src/components/MiniChat.tsx:110 | the close button sets `open` false |
| MiniChat.Panel.SetInput | src/components/MiniChat.tsx:150 | only the input changes |
| MiniChat.Panel.Send | src/components/MiniChat.tsx:62-76 | an accepted send appends the question to the shared history and posts it with the contestation id and the earlier history; otherwise nothing changes |
| MiniChat.Panel.Finish | src/components/MiniChat.tsx:77-92 | the reply or the apology is appended to the shared history and nothing is pending |
| ContestationDetail.Latest | src/pages/ContestationDetail.tsx:119 | the first contestation, present exactly when there is one |
| ContestationDetail.VersionLabels | src/pages/ContestationDetail.tsx:162-167 | one badge per contestation, `v<count - i>` |
| ContestationDetail.VersionLabelNumber | src/pages/ContestationDetail.tsx:167 | each badge reads back as a number from count down to 1 |
| ContestationDetail.VersionLabelsDistinct | src/pages/ContestationDetail.tsx:165-167 | no two versions carry the same badge |
| ContestationDetail.DownloadButton | src/pages/ContestationDetail.tsx:186-195 | a download button is disabled and reads "Baixando..." exactly while its download runs |
| ContestationDetail.View | src/pages/ContestationDetail.tsx:106-274 | spinner while loading, the error screen on an error, otherwise the petition; the detail appears exactly when a contestation exists, with the version list only for several, the newest text rendered, and the report button only when a report document exists |
| ContestationDetail.ContestationPage.constructor | src/pages/ContestationDetail.tsx:28-38 | loading, no petition, no error, split view, an empty chat store |
| ContestationDetail.ContestationPage.Load | src/pages/ContestationDetail.tsx:42-48 | the spinner shows and the petition of the route is requested |
| ContestationDetail.ContestationPage.ChangeRoute | src/pages/ContestationDetail.tsx:50 | a new route id reloads, keeping everything else |
| ContestationDetail.ContestationPage.MountChat | src/pages/ContestationDetail.tsx:215-223 | a fresh panel for the newest contestation on the shared store, inline in split view, seeded when visible and not yet initialised |
| ContestationDetail.ContestationPage.FinishLoad | src/pages/ContestationDetail.tsx:44-47 | the petition on success, the not-found error otherwise; a chat panel is mounted exactly when the detail is on screen |
| ContestationDetail.ContestationPage.ClickDownload | src/pages/ContestationDetail.tsx:52-55 | when the button is on screen and enabled, the newest contestation's document is requested and the button busy; otherwise nothing happens |
| ContestationDetail.ContestationPage.FinishDownload | src/pages/ContestationDetail.tsx:56-60 | the button is released; a failure sets the download error |
| ContestationDetail.ContestationPage.ClickDownloadReport | src/pages/ContestationDetail.tsx:63-66 | the same for the report, whose button exists only when a report document does |
| ContestationDetail.ContestationPage.FinishDownloadReport | src/pages/ContestationDetail.tsx:67-71 | the report button is released; a failure sets the report error |
| ContestationDetail.ContestationPage.SetSplitView | src/pages/ContestationDetail.tsx:134-148 | choosing the other layout switches it and mounts a new panel on the same history; choosing the current one does nothing |
| History.TruncateText | src/pages/History.tsx:23-27 | a dash for a missing or empty text, the text when it fits the limit (20 by default), otherwise its first characters and `...` |
| History.TruncatedWidth | src/pages/History.tsx:168 | with the default limit at most 23 characters show |
| History.StatusBadge | src/pages/History.tsx:29-36 | the badge of a known status, the pending badge for any other |
| History.BadgesDistinct | src/pages/History.tsx:30-35 | the four known statuses have different captions and classes |
| History.ScoreStyle | src/pages/History.tsx:180-193 | a dash without a score; red exactly from 75, amber exactly from 40 below 75, green exactly below 40, each on its background |
| History.ScoreStyleMonotone | src/pages/History.tsx:186-187 | a higher score never gets a milder colour |
| History.HasProcessing | src/pages/History.tsx:69 | true exactly when some petition is processing |
| History.MarkProcessing | src/pages/History.tsx:80-82 | the row with the id turns processing; every other row and the order stay |
| History.GenerateStartsPolling | src/pages/History.tsx:69-82 | starting a generation for a listed petition turns polling on |
| History.MarkProcessingIdempotent | src/pages/History.tsx:80-82 | marking twice is marking once |
| History.RemoveId | src/pages/History.tsx:94 | the filter never lengthens the list |
| History.RemoveIdMembers | src/pages/History.tsx:94 | exactly the rows with other ids remain |
| History.RemoveIdAppend | src/pages/History.tsx:94 | the filter works row by row, keeping the order |
| History.RemoveIdKeeps | src/pages/History.tsx:94 | a list without the id is left as it is |
| History.RemoveIdIdempotent | src/pages/History.tsx:94 | deleting twice is deleting once |
| History.RowActions | src/pages/History.tsx:201-233 | generate only for pending or failed petitions, disabled for the one being generated; analyse only with a contestation, opening its page; delete always |
| History.RowOf | src/pages/History.tsx:155-233 | the title as given, the status badge, both names truncated to at most 23 characters, the score cell, and the actions, delete always present |
| History.View | src/pages/History.tsx:126-241 | spinner while loading, the empty state without petitions, otherwise one row per petition in order |
| History.HistoryPage.constructor | src/pages/History.tsx:47-50 | loading, no petitions, nothing generating, no error |
| History.HistoryPage.Polling | src/pages/History.tsx:69-74 | the polling timer runs exactly while some listed petition is processing |
| History.HistoryPage.Load | src/pages/History.tsx:58-60 | the spinner shows and the listing is requested |
| History.HistoryPage.FinishLoad | src/pages/History.tsx:60-63 | the listing on success, the load error otherwise; the spinner stops |
| History.HistoryPage.SilentLoad | src/pages/History.tsx:53-54 | the same listing request |
| History.HistoryPage.FinishSilentLoad | src/pages/History.tsx:54-56 | the listing on success; a failure changes nothing |
| History.HistoryPage.BeginGenerate | src/pages/History.tsx:76-79 | the row is marked as generating and generation is requested |
| History.HistoryPage.FinishGenerate | src/pages/History.tsx:79-87 | on success the row turns processing, otherwise the server's detail or the fallback shows; the generating mark is cleared either way |
| History.HistoryPage.RequestDelete | src/pages/History.tsx:90-93 | the delete request is sent only when confirmed |
| History.HistoryPage.FinishDelete | src/pages/History.tsx:93-97 | on success the row goes, otherwise the delete error shows |
| UploadPetition.ExtensionAtUnique | src/pages/UploadPetition.tsx:27 | the extension pattern can match at one position only |
| UploadPetition.ExtensionRun | src/pages/UploadPetition.tsx:27 | the longest suffix free of slashes and dots |
| UploadPetition.StripExtension | src/pages/UploadPetition.tsx:27 | the name changes exactly when it has an extension, and then loses exactly the extension |
| UploadPetition.StripExtensionExamples | src/pages/UploadPetition.tsx:27 | only the last extension goes; a trailing dot stays; `.pdf` becomes empty |
| UploadPetition.NewItems | src/pages/UploadPetition.tsx:41 | one item per chosen file, with an empty description |
| UploadPetition.RemoveAt | src/pages/UploadPetition.tsx:46 | the filter by position never lengthens the list |
| UploadPetition.RemoveAtSplices | src/pages/UploadPetition.tsx:46 | exactly the item at the position is removed, or nothing for a position outside the list |
| UploadPetition.SetDescription | src/pages/UploadPetition.tsx:49-53 | only the description at the position changes |
| UploadPetition.Descriptions | src/pages/UploadPetition.tsx:66 | the descriptions in order |
| UploadPetition.DescriptionsField | src/pages/UploadPetition.tsx:66 | the comma join of the descriptions; no contract of its own, its meaning is stated by `DescriptionsRoundTrip`, `CommaIsAmbiguous` and `NoSubsidiesField` |
| UploadPetition.DescriptionsRoundTrip | src/pages/UploadPetition.tsx:66 | the joined field splits back into the descriptions when none holds a comma |
| UploadPetition.CommaIsAmbiguous | src/pages/UploadPetition.tsx:66 | one description `a,b` sends the same field as two descriptions `a` and `b` |
| UploadPetition.NoSubsidiesField | src/pages/UploadPetition.tsx:66 | without supporting files the field is sent empty |
| UploadPetition.SubsidyEntries | src/pages/UploadPetition.tsx:65 | one `subsidies` entry per file, in order |
| UploadPetition.Files | src/pages/UploadPetition.tsx:65 | the files of the items, in order |
| UploadPetition.NamedAppend | src/pages/UploadPetition.tsx:62-66 | the entries under a name gather part by part of a form |
| UploadPetition.NamedFormBy | src/pages/UploadPetition.tsx:62-66 | what any one name gathers from the form |
| UploadPetition.FormFields | src/pages/UploadPetition.tsx:62-66 | the form carries the title once, the petition once, the supporting files in order, and the joined descriptions once |
| UploadPetition.SubsidyPairing | src/pages/UploadPetition.tsx:65-66 | the server pairs each supporting file with its own description, when no description holds a comma |
| UploadPetition.Form | src/pages/UploadPetition.tsx:62-66 | the FormData `handleSubmit` builds; no contract of its own, its meaning is stated by `FormFields`, `NamedFormBy` and `SubsidyPairing` |
| UploadPetition.SubmitError | src/pages/UploadPetition.tsx:57-58 | a missing petition first, then a blank title; no error exactly when both are there |
| UploadPetition.UploadPage.constructor | src/pages/UploadPetition.tsx:13-19 | an empty form |
| UploadPetition.UploadPage.SetMainFile | src/pages/UploadPetition.tsx:24-29 | the petition is set and the title becomes its name without extension |
| UploadPetition.UploadPage.DragOver | src/pages/UploadPetition.tsx:117 | the drop zone lights up |
| UploadPetition.UploadPage.DragLeave | src/pages/UploadPetition.tsx:118 | the drop zone goes dark |
| UploadPetition.UploadPage.DropMain | src/pages/UploadPetition.tsx:31-37 | a dropped PDF becomes the petition; anything else, or nothing, shows the PDF-only error |
| UploadPetition.UploadPage.PickMain | src/pages/UploadPetition.tsx:130 | the first picked file becomes the petition, whatever its type |
| UploadPetition.UploadPage.ClearMainFile | src/pages/UploadPetition.tsx:109 | the petition is cleared, the title stays |
| UploadPetition.UploadPage.AddSubsidies | src/pages/UploadPetition.tsx:39-43 | new files go after those listed |
| UploadPetition.UploadPage.RemoveSubsidy | src/pages/UploadPetition.tsx:45-47 | the item at the position goes |
| UploadPetition.UploadPage.UpdateDescription | src/pages/UploadPetition.tsx:49-53 | the description at the position changes |
| UploadPetition.UploadPage.BeginSubmit | src/pages/UploadPetition.tsx:55-69 | nothing while sending or after success; a failed check shows its message; otherwise the form is posted, the error cleared and the button busy |
| UploadPetition.UploadPage.FinishSubmit | src/pages/UploadPetition.tsx:68-76 | success is shown and the history page scheduled, or the server's detail or the fallback shows |
| Dashboard.RiskColour | src/pages/Dashboard.tsx:159-164 | red, amber and green exactly for the three risk levels, grey for anything else |
| Dashboard.LawyerColour | src/pages/Dashboard.tsx:268 | the palette colour at the position modulo ten |
| Dashboard.LawyerColourCycle | src/pages/Dashboard.tsx:37-40 | the palette repeats every ten lawyers and no colour repeats within ten |
| Dashboard.LegendLabel | src/pages/Dashboard.tsx:284 | a caption over the limit is cut to the limit and ends in `…`; a shorter one stays |
| Dashboard.OffenderCard | src/pages/Dashboard.tsx:155 | `<count> casos` and the name when a name is known, `0` and the placeholder otherwise |
| Dashboard.Slices | src/pages/Dashboard.tsx:258-287 | one slice per lawyer, coloured by position, captioned within 28 characters |
| Dashboard.Lines | src/pages/Dashboard.tsx:308-325 | one line per lawyer, coloured by position, captioned within 22 characters |
| Dashboard.View | src/pages/Dashboard.tsx:139-355 | spinner, error, nothing without metrics, otherwise the board: risk slices coloured by level, the lawyer charts exactly when some lawyer has cases, the similarity map exactly when there are points |
| Dashboard.DashboardPage.constructor | src/pages/Dashboard.tsx:115-119 | loading, nothing loaded, no error |
| Dashboard.MountRequests | src/pages/Dashboard.tsx:122-126 | the mount effect requests metrics, lawyer statistics and the map, in that order, each a GET without body |
| Dashboard.DashboardPage.FinishLoad | src/pages/Dashboard.tsx:121-136 | all three results are kept only when all three requests succeed; otherwise the error shows |
| Layout.Stored | src/components/Layout.tsx:30-31 | `getItem`: the stored text, or nothing for a missing key |
| Layout.InitialCollapsed | src/components/Layout.tsx:30 | collapsed only when exactly `true` is stored |
| Layout.BoolText | src/components/Layout.tsx:46 | `toString()` of the flag: `true` or `false`, and it reads back as the same flag |
| Layout.InitialTheme | src/components/Layout.tsx:31 | the stored theme, or dark when none or an empty one is stored |
| Layout.Persist | src/components/Layout.tsx:45-52 | the flag as text and the theme are stored; other keys stay |
| Layout.PersistRoundTrip | src/components/Layout.tsx:30-52 | what is stored is what the next visit starts with |
| Layout.ToggleTheme | src/components/Layout.tsx:54 | dark becomes light, anything else dark |
| Layout.ToggleThemeTwice | src/components/Layout.tsx:54 | two toggles restore dark and light; any other theme settles on light |
| Layout.Logo | src/components/Layout.tsx:70-72 | the logo for each sidebar width and theme |
| Layout.LogoDistinct | src/components/Layout.tsx:70-72 | every width and dark-or-not theme has its own logo |
| Layout.ThemeEntry | src/components/Layout.tsx:107 | the theme entry names the theme it switches to |
| Layout.SidebarEntry | src/components/Layout.tsx:112 | the sidebar entry names what it will do |
| Layout.Frame.constructor | src/components/Layout.tsx:30-52 | the state read from storage, then persisted and applied to the document |
| Layout.Frame.ToggleMenu | src/components/Layout.tsx:126 | the profile menu opens or closes |
| Layout.Frame.MouseDown | src/components/Layout.tsx:36-40 | a press outside the footer closes the menu |
| Layout.Frame.ChooseThemeEntry | src/components/Layout.tsx:105 | the theme is switched, stored and applied, and the menu closes |
| Layout.Frame.ChooseSidebarEntry | src/components/Layout.tsx:110 | the sidebar is collapsed or expanded, stored, and the menu closes |
| Layout.Frame.ChooseLogoutEntry | src/components/Layout.tsx:57-60 | the login page opens and the menu closes |

## Left out

- The route parameter is taken as an integer. `Number(id)` on text that is not a number, which gives `NaN`, is not modelled.
- Timers are left out: the 3-second polling interval of the history page is the predicate `History.HistoryPage.Polling`, and the 1.5-second delay before the move to the history page is the returned target.
- Browser services are parameters or results: `localStorage` is a map, and the document's theme attribute is a field. A download is the request and the file name; blobs and object URLs are left out.
- The HTTP client is left out: its base URL, its authentication header and its error objects. Each request outcome is a `Response` value.
- The authentication context's `logout` and the user shown in the sidebar are left out; logging out is the navigation target.
- Rendering beyond what the views state is left out: JSX structure, icons, CSS classes, scrolling to the newest message, and the chat messages' own markdown renderer (a library).
- Charts are left out: their geometry and the pie labels' trigonometry. Of the chart data, only the colours and legend captions are modelled.
- Key figures other than the offender card are left out: counts, `hoursSaved`, percentages and average pages, which are floating-point arithmetic and number formatting.
- Dates are left out: `toLocaleString` formatting of dates, and the version list's dates and model names.
- Floating-point fields, the similarity score and the dashboard averages, are `real`.
- `History.StatusBadge`: an inherited key of a JavaScript object (such as `constructor`) would also be found by `map[status]`; the model knows only the four statuses.
- `Dashboard.View`: `pcaData` is a sequence, so the `null` case of `pcaData && …` is not modelled.
- `History.TruncateText`: for a negative limit it states only the `...` ending and the prefix, not the length, because `slice(0, limit)` then counts from the end.
- `History.TruncateText`, `Dashboard.LegendLabel` and `Text.Slice`: a `String` counts Unicode scalar values, while JavaScript's `length` and `slice` count UTF-16 code units, so text with characters outside the Basic Multilingual Plane is measured and cut differently (`truncateText` of three emoji with limit 4 sees length 6 in JavaScript and truncates, while the model sees length 3 and keeps the text). `Decimal.Show` likewise renders every integer in plain digits, whereas JavaScript's `${id}` switches to exponent notation from 1e21 on and loses precision beyond 2^53.
- Concurrency is left out. The order in which pending requests end is the order of the `Finish…` calls, so any order can be modelled. A response that arrives after the page has unmounted is not modelled.
- The login, registration and landing pages are not part of this model; their requests are (`Endpoints.Register`, `Endpoints.Login`, `Endpoints.Me`).
