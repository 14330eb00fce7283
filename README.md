# mate-zap core, modelled in Dafny

mate-zap is a dashboard that a restaurant uses for WhatsApp marketing. This
project models the logic behind its screens and its QR-session function:

- **Template editor** (`template_builder.dfy`). The spintext preview fills
  in `{{nome}}` and keeps the first option of every `{a|b|c}` group.
- **Blacklist dialog** (`blacklist.dfy`). Pasted or loaded text is split on
  commas, semicolons and line breaks. Each piece is reduced to its digits,
  and pieces with fewer than ten digits are dropped.
- **CSV import** (`csv_import.dfy`). Non-blank lines are kept and the first
  one gives the headers, trimmed and lower-cased. Each row becomes a
  contact keyed by header, `tags` is split on `;`, and the contact ids come
  from the row index.
- **WhatsApp QR function** (`whatsapp_qr.dfy`). This is a router over an
  in-memory session store with four endpoints: start session, scan QR,
  status and disconnect, each with its error responses.
- **Status scheduler** (`status_scheduler.dfy`) and **new status dialog**
  (`new_status_dialog.dfy`):
  - create, edit, delete and pause scheduled WhatsApp statuses;
  - count the active ones and pick the next one;
  - the dialog's submit checks.
- **Campaign dialogs** (`campaign.dfy`, `new_campaign.dfy`,
  `funnel_campaign.dfy`):
  - the message total read from the audience text;
  - the status and next-send text chosen by the start date;
  - the tag list with no repeats;
  - the funnel of one to four messages.
- **Client segment dialog** (`client_segment.dfy`). It toggles tags and
  preferred dishes, and submit requires a name.
- **History page** (`history.dfy`). It searches by title, ignoring case,
  and splits the results into a campaigns tab and a statuses tab.

Three shared modules support the rest. `strings.dfy` holds trimming,
splitting, digits, lower-casing, substring search and code-point order.
`lists.dfy` holds filtering, removal, toggling and subsequences.
`options.dfy` holds the option type.

Dialogs whose handlers update React state are classes whose methods update
fields. The calculations those handlers perform are functions, and lemmas
state their properties. Clock readings, random numbers and generated ids
are method parameters.

The preview fills in only `{{nome}}`; the code has no other template
variable. It always keeps the first option of a spintext group; the code
makes no random choice among the options. No code plans or paces the
sending of campaign messages.

## Model

| member | source | states |
|---|---|---|
| TemplateBuilder.GeneratePreview | src/components/TemplateBuilder.tsx:13-26 | a template without `{` previews as itself |
| TemplateBuilder.Braced | src/components/TemplateBuilder.tsx:10 | a group is exactly its options between `{` and `}` |
| TemplateBuilder.ReplaceNameNoOccurrence | src/components/TemplateBuilder.tsx:17 | text without `{{nome}}` is left unchanged by the name pass |
| TemplateBuilder.ReplaceNameCopiesPrefix | src/components/TemplateBuilder.tsx:17 | text before the first `{{nome}}` is copied unchanged |
| TemplateBuilder.ReplaceNameLeftmost | src/components/TemplateBuilder.tsx:17 | the leftmost `{{nome}}` becomes the name and the scan resumes after it |
| TemplateBuilder.ReplaceNameSkipsText | src/components/TemplateBuilder.tsx:17 | text with no `{{` is passed over by the name pass |
| TemplateBuilder.ReplaceNameSkipsGroup | src/components/TemplateBuilder.tsx:17 | a spintext group is passed over by the name pass |
| TemplateBuilder.ReplaceNameSkipsPlain | src/components/TemplateBuilder.tsx:17 | text without `{` is passed over by the name pass |
| TemplateBuilder.ReplaceNameAtVariable | src/components/TemplateBuilder.tsx:17 | `{{nome}}` at the front becomes the name |
| TemplateBuilder.FirstClose | src/components/TemplateBuilder.tsx:20 | the found index holds a `}` |
| TemplateBuilder.FirstCloseIsFirst | src/components/TemplateBuilder.tsx:20 | no `}` comes before the found one, and with none found there is no `}` at all |
| TemplateBuilder.GroupLength | src/components/TemplateBuilder.tsx:20 | a group at the front fits within the text |
| TemplateBuilder.GroupAtStart | src/components/TemplateBuilder.tsx:20 | a `{`, then one or more characters other than `}`, then `}`, matches exactly at the first `}` |
| TemplateBuilder.FirstOption | src/components/TemplateBuilder.tsx:21-22 | the result is the prefix before the first `\|`, or the whole text |
| TemplateBuilder.FirstOptionIsFirstPiece | src/components/TemplateBuilder.tsx:21-22 | equals `split('\|')[0]` |
| TemplateBuilder.FirstOptionWhole | src/components/TemplateBuilder.tsx:21-22 | content without `\|` is its own first option |
| TemplateBuilder.FirstOptionBeforeBar | src/components/TemplateBuilder.tsx:21-22 | `a\|rest` yields `a` |
| TemplateBuilder.Spin | src/components/TemplateBuilder.tsx:20-23 | the spin pass never lengthens the text |
| TemplateBuilder.SpinNoGroup | src/components/TemplateBuilder.tsx:20-23 | text with no group is unchanged |
| TemplateBuilder.SpinNoBrace | src/components/TemplateBuilder.tsx:20-23 | text without `{` is unchanged |
| TemplateBuilder.SpinNoClose | src/components/TemplateBuilder.tsx:20-23 | text without `}` is unchanged |
| TemplateBuilder.SpinAtGroup | src/components/TemplateBuilder.tsx:20-23 | a group at the front becomes its first option and the scan continues after it |
| TemplateBuilder.SpinAtText | src/components/TemplateBuilder.tsx:20-23 | a character that starts no group is copied |
| TemplateBuilder.SpinCopiesPrefix | src/components/TemplateBuilder.tsx:20-23 | text before the first group is copied |
| TemplateBuilder.SpinFromGroup | src/components/TemplateBuilder.tsx:20-23 | from a group onwards: its first option, then the rest spun |
| TemplateBuilder.SpinLeftmost | src/components/TemplateBuilder.tsx:20-23 | the leftmost group is replaced by its first option |
| TemplateBuilder.SpinShortens | src/components/TemplateBuilder.tsx:20-23 | any group makes the text at least two characters shorter |
| TemplateBuilder.GroupInFront | src/components/TemplateBuilder.tsx:20-23 | a group written in front becomes its first option |
| TemplateBuilder.TextInFront | src/components/TemplateBuilder.tsx:20-23 | plain text in front is kept |
| TemplateBuilder.OtherVariableSingleBrace | src/components/TemplateBuilder.tsx:20-23 | an unknown `{{v}}` previews as `{v}` |
| TemplateBuilder.PreviewOfShape | src/components/TemplateBuilder.tsx:13-26 | group, text, `{{nome}}`, text, group, text previews as the first options with the name filled in |
| TemplateBuilder.DefaultPreview | src/components/TemplateBuilder.tsx:10-26 | the opening template previews as "Oi João, hoje tem feijoada! Vem garantir o seu 😋" |
| Blacklist.Token | src/components/BlacklistDialog.tsx:32 | the longest separator-free prefix |
| Blacklist.SkipSeparators | src/components/BlacklistDialog.tsx:32 | drops exactly the leading separators |
| Blacklist.SplitRuns | src/components/BlacklistDialog.tsx:32 | at least one piece, none containing a separator, inner pieces non-empty |
| Blacklist.SplitRunsKeepsText | src/components/BlacklistDialog.tsx:32 | the pieces joined give back the text without its separators |
| Blacklist.SplitRunsClean | src/components/BlacklistDialog.tsx:32 | text without a separator is one piece, itself |
| Blacklist.SplitRunsAfterRun | src/components/BlacklistDialog.tsx:32 | a separator-free piece, a run of separators, then text starting with a non-separator: the piece, then the pieces of that text |
| Blacklist.Normalize | src/components/BlacklistDialog.tsx:33 | keeps exactly the digits of the piece |
| Blacklist.NormalizeAll | src/components/BlacklistDialog.tsx:33 | normalizes each piece in place |
| Blacklist.ParseNumbers | src/components/BlacklistDialog.tsx:31-34 | every number kept is all digits and at least ten long |
| Blacklist.ParseNumbersInOrder | src/components/BlacklistDialog.tsx:31-34 | the numbers keep the order of the pieces |
| Blacklist.ParseNumbersMembership | src/components/BlacklistDialog.tsx:31-34 | a number is kept iff it has at least ten characters and is the digits of some piece |
| Blacklist.NormalizedMembership | src/components/BlacklistDialog.tsx:33 | a normalized number is present iff it is the digits of some piece |
| Blacklist.LocalFormat | src/components/BlacklistDialog.tsx:33 | "(11) 99988-7766" normalizes to "11999887766" |
| Blacklist.InternationalFormat | src/components/BlacklistDialog.tsx:33 | "+55 11 99988-7766" normalizes to "5511999887766" |
| Blacklist.Decide | src/components/BlacklistDialog.tsx:22-41 | blank text iff empty-input error; no valid number iff that error; otherwise the parsed numbers are added |
| Blacklist.BlacklistForm.constructor | src/components/BlacklistDialog.tsx:18-20 | closed, with both fields empty |
| Blacklist.BlacklistForm.LoadFile | src/components/BlacklistDialog.tsx:49-59 | the file's text replaces the numbers field |
| Blacklist.BlacklistForm.Submit | src/components/BlacklistDialog.tsx:22-47 | the outcome is Decide of the text; errors change nothing; success closes and clears |
| CsvImport.Lines | src/components/CSVImportDialog.tsx:56 | a line is kept iff it is a non-blank line of the text; order kept |
| CsvImport.LinesDropOnlyBlank | src/components/CSVImportDialog.tsx:56 | the kept and the blank lines together are all the lines |
| CsvImport.Headers | src/components/CSVImportDialog.tsx:57 | each header is its cell trimmed and lower-cased |
| CsvImport.TrimAll | src/components/CSVImportDialog.tsx:65 | every piece trimmed, count kept |
| CsvImport.FieldForCases | src/components/CSVImportDialog.tsx:63-68 | `tags` with a non-empty cell is a trimmed `;` list; other cells are trimmed text; a missing cell is empty |
| CsvImport.ImportedIdInjective | src/components/CSVImportDialog.tsx:61 | different rows get different ids |
| CsvImport.Fields | src/components/CSVImportDialog.tsx:63-69 | one field per header |
| CsvImport.BuildContact | src/components/CSVImportDialog.tsx:59-72 | the loop builds the contact the row defines |
| CsvImport.StoreColumns | src/components/CSVImportDialog.tsx:63-69 | storing each column in turn gives the contact with every header assigned |
| CsvImport.AssignKeys | src/components/CSVImportDialog.tsx:63-69 | the keys are the initial ones plus every header |
| CsvImport.AssignLastWins | src/components/CSVImportDialog.tsx:63-69 | a repeated header keeps its last column's value |
| CsvImport.AssignKeepsKey | src/components/CSVImportDialog.tsx:61-69 | an initial key no header names keeps its value |
| CsvImport.ExtraCellsIgnored | src/components/CSVImportDialog.tsx:60-69 | cells beyond the headers do not matter |
| CsvImport.ContactsOf | src/components/CSVImportDialog.tsx:59-72 | one contact per data row |
| CsvImport.ParseCsv | src/components/CSVImportDialog.tsx:55-72 | fails exactly when no non-blank line exists |
| CsvImport.ParsedContacts | src/components/CSVImportDialog.tsx:56-72 | row k after the header gives contact k |
| CsvImport.ParsedIdsDistinct | src/components/CSVImportDialog.tsx:59-61 | without an `id` column, the contact ids are distinct |
| CsvImport.CsvImportDialog.constructor | src/components/CSVImportDialog.tsx:15-17 | closed, no file, not uploading |
| CsvImport.CsvImportDialog.ChooseFile | src/components/CSVImportDialog.tsx:37-44 | accepted iff a `text/csv` file was chosen |
| CsvImport.CsvImportDialog.Upload | src/components/CSVImportDialog.tsx:46-83 | no file is reported; an unparsable file fails and is kept; a parsed file hands over its contacts, then closes and clears |
| CsvImport.TemplateLinesKept | src/components/CSVImportDialog.tsx:20 | the downloadable template keeps its three lines |
| CsvImport.FifthHeader | src/components/CSVImportDialog.tsx:57 | a header line of five plain cells has five columns, the fifth its last cell trimmed and lower-cased |
| CsvImport.TagsCell | src/components/CSVImportDialog.tsx:57 | the cell `tags` names the column `tags` |
| CsvImport.TemplateHeaderRow | src/components/CSVImportDialog.tsx:20 | the template's header row has five plain cells, the last naming `tags` |
| CsvImport.TemplateFirstRowTagged | src/components/CSVImportDialog.tsx:20 | the first sample row has five plain cells, tagged "Gosta de Frango" and "VIP" |
| CsvImport.TemplateSecondRowTagged | src/components/CSVImportDialog.tsx:20 | the second sample row has five plain cells, tagged "Vegetarianos" |
| CsvImport.ThreeRowImport | src/components/CSVImportDialog.tsx:55-72 | a `tags`-ending header row and two tagged rows import as two contacts holding those tags |
| CsvImport.OneTag | src/components/CSVImportDialog.tsx:65 | a single tag is one list entry |
| CsvImport.TwoTags | src/components/CSVImportDialog.tsx:65 | `a;b` is two entries |
| CsvImport.FirstRowTags | src/components/CSVImportDialog.tsx:20 | the first sample row's tags |
| CsvImport.SecondRowTags | src/components/CSVImportDialog.tsx:20 | the second sample row's tags |
| CsvImport.TagsOfRow | src/components/CSVImportDialog.tsx:63-68 | a row's `tags` cell becomes its tag list |
| CsvImport.TemplateImports | src/components/CSVImportDialog.tsx:19-20 | importing the template gives two contacts with the sample tags |
| WhatsappQr.Scanned | supabase/functions/whatsapp-qr/index.ts:104-111 | a scanned session is connected, has the mock phone, no QR, and the new activity time |
| WhatsappQr.Code | supabase/functions/whatsapp-qr/index.ts:19-64 | 200 exactly for the success responses, 404 exactly for the two not-found ones |
| WhatsappQr.LastSegment | supabase/functions/whatsapp-qr/index.ts:27 | the segment contains no `/` |
| WhatsappQr.Route | supabase/functions/whatsapp-qr/index.ts:19-49 | each endpoint is matched exactly by its verb and last path segment |
| WhatsappQr.LastPiece | supabase/functions/whatsapp-qr/index.ts:27 | the last split piece ends the text after the last separator |
| WhatsappQr.RouteIgnoresPrefix | supabase/functions/whatsapp-qr/index.ts:27-49 | only the last segment of the path decides the route |
| WhatsappQr.SegmentAfterSlash | supabase/functions/whatsapp-qr/index.ts:27 | the text after the last `/` is the segment |
| WhatsappQr.SessionStore.constructor | supabase/functions/whatsapp-qr/index.ts:17 | an empty store |
| WhatsappQr.SessionStore.StartSession | supabase/functions/whatsapp-qr/index.ts:66-92 | stores a waiting session with its QR under the id |
| WhatsappQr.SessionStore.ScanQr | supabase/functions/whatsapp-qr/index.ts:94-123 | an unknown id is a 400 with no change; otherwise the session becomes scanned |
| WhatsappQr.SessionStore.SessionStatusOf | supabase/functions/whatsapp-qr/index.ts:125-141 | an unknown id is not found; otherwise the stored session |
| WhatsappQr.SessionStore.Disconnect | supabase/functions/whatsapp-qr/index.ts:143-162 | an unknown id is not found; otherwise the session is deleted |
| WhatsappQr.SessionStore.Handle | supabase/functions/whatsapp-qr/index.ts:19-64 | dispatches by route; malformed bodies are 500 errors; unknown routes are 404 and change nothing |
| WhatsappQr.StartAddsOne | supabase/functions/whatsapp-qr/index.ts:80 | a new session adds one entry |
| WhatsappQr.DisconnectRemovesOne | supabase/functions/whatsapp-qr/index.ts:153 | disconnecting removes one entry |
| StatusScheduler.ReplaceById | src/components/StatusScheduler.tsx:72 | entries with the id become the new status; others unchanged; ids and length kept |
| StatusScheduler.ReplaceAbsent | src/components/StatusScheduler.tsx:72 | replacing an absent id changes nothing |
| StatusScheduler.RemoveById | src/components/StatusScheduler.tsx:86 | exactly the statuses with another id remain, in order |
| StatusScheduler.ToggleById | src/components/StatusScheduler.tsx:92 | flips `active` of the statuses with the id only |
| StatusScheduler.ToggleByIdTwice | src/components/StatusScheduler.tsx:92 | pausing twice restores the list |
| StatusScheduler.ActiveCount | src/components/StatusScheduler.tsx:98 | at most the list length, and zero iff none is active |
| StatusScheduler.ActiveCountAppend | src/components/StatusScheduler.tsx:76-98 | adding a status raises the count by one iff it is active |
| StatusScheduler.NextIndex | src/components/StatusScheduler.tsx:99-101 | the index found is within the list |
| StatusScheduler.NextIndexIsEarliest | src/components/StatusScheduler.tsx:99-101 | none iff no status is active; otherwise the first active one with the earliest time |
| StatusScheduler.NextStatus | src/components/StatusScheduler.tsx:99-101 | none iff no status is active; otherwise the status at NextIndex, the first active one with the earliest time |
| StatusScheduler.Scheduler.constructor | src/components/StatusScheduler.tsx:22-66 | starts from the given list and edits nothing |
| StatusScheduler.Scheduler.EditStatus | src/components/StatusScheduler.tsx:80-83 | remembers the status being edited |
| StatusScheduler.Scheduler.CancelEdit | src/components/StatusScheduler.tsx:364-367 | closing the edit dialog ends the edit and keeps the list |
| StatusScheduler.Scheduler.CreateStatus | src/components/StatusScheduler.tsx:69-78 | while editing, replaces by id; otherwise appends; editing ends |
| StatusScheduler.Scheduler.DeleteStatus | src/components/StatusScheduler.tsx:85-88 | removes by id |
| StatusScheduler.Scheduler.ToggleActive | src/components/StatusScheduler.tsx:90-96 | toggles by id |
| NewStatusDialog.Check | src/components/NewStatusDialog.tsx:82-101 | accepted iff title, content, media (new status with media type), date and time, and days when weekly are present; each error holds iff every earlier check passes and its own item is missing |
| NewStatusDialog.DaysOnlyMatterWeekly | src/components/NewStatusDialog.tsx:98 | outside weekly repetition the chosen days do not affect the check |
| NewStatusDialog.NewStatus | src/components/NewStatusDialog.tsx:103-115 | copies the form, becomes active, and keeps the edited status's id and creation time when present |
| NewStatusDialog.StatusForm.constructor | src/components/NewStatusDialog.tsx:39-47 | empty, or the edited status's fields |
| NewStatusDialog.StatusForm.ToggleDay | src/components/NewStatusDialog.tsx:74-80 | toggles one day only |
| NewStatusDialog.StatusForm.RemoveMedia | src/components/NewStatusDialog.tsx:69-72 | clears only the media preview |
| NewStatusDialog.StatusForm.Submit | src/components/NewStatusDialog.tsx:82-132 | a rejection changes nothing; acceptance hands over the new status and resets |
| Campaign.TotalMessages | src/components/NewCampaignDialog.tsx:52 | at least 1; the value of the digits when non-zero; 100 when there are no digits or they read as 0 |
| Campaign.AudienceCount | src/components/NewCampaignDialog.tsx:52 | a number followed by digit-free text reads as that number |
| Campaign.NoDigitsDefault | src/components/NewCampaignDialog.tsx:52 | digit-free text gives 100 |
| Campaign.AudienceOfDigits | src/components/NewCampaignDialog.tsx:52 | non-zero digits followed by digit-free text give their value |
| Campaign.EightHundredFifty | src/components/NewCampaignDialog.tsx:52 | "850 clientes" gives 850 |
| Campaign.ZeroAudience | src/components/NewCampaignDialog.tsx:52 | an audience of zero falls back to 100 |
| Campaign.StatusFor | src/components/NewCampaignDialog.tsx:48 | scheduled iff a start date is given |
| Campaign.NextSend | src/components/NewCampaignDialog.tsx:50 | with a date: the date, a space, then the time; without one, "Agora" |
| Campaign.NextSendAgreesWithStatus | src/components/NewCampaignDialog.tsx:48-50 | "Agora" exactly when the campaign is active |
| NewCampaign.Build | src/components/NewCampaignDialog.tsx:43-56 | fields copied, nothing sent; the total is TotalMessages of the audience, the status StatusFor and the next send NextSend of the date and time |
| NewCampaign.NewCampaignDialog.constructor | src/components/NewCampaignDialog.tsx:17-26 | initial form, priority normal, no tags |
| NewCampaign.NewCampaignDialog.AddTag | src/components/NewCampaignDialog.tsx:33-37 | adds an absent tag at the end and keeps tags distinct |
| NewCampaign.NewCampaignDialog.RemoveTag | src/components/NewCampaignDialog.tsx:39-41 | removes the tag, others keep their order |
| NewCampaign.NewCampaignDialog.PressTag | src/components/NewCampaignDialog.tsx:173 | a selected tag is removed and an unselected tag is added |
| NewCampaign.NewCampaignDialog.TypeTag | src/components/NewCampaignDialog.tsx:184 | only the custom tag input changes |
| NewCampaign.NewCampaignDialog.AddCustomTag | src/components/NewCampaignDialog.tsx:186-204 | a blank entry is ignored; otherwise the trimmed tag is added and the input cleared |
| NewCampaign.NewCampaignDialog.Submit | src/components/NewCampaignDialog.tsx:43-69 | hands over Build of the form and resets it |
| NewCampaign.CustomTagPadding | src/components/NewCampaignDialog.tsx:189-190 | surrounding spaces do not change the added tag |
| FunnelCampaign.RemoveById | src/components/FunnelCampaignDialog.tsx:69 | exactly the messages with another id remain, in order |
| FunnelCampaign.RemoveAtMostOne | src/components/FunnelCampaignDialog.tsx:63-70 | with distinct ids, at most one message goes and the ids stay distinct |
| FunnelCampaign.Apply | src/components/FunnelCampaignDialog.tsx:74 | sets one field, keeping id and order |
| FunnelCampaign.UpdateById | src/components/FunnelCampaignDialog.tsx:72-76 | updates the messages with the id only; ids, orders and length kept |
| FunnelCampaign.UpdateLastWins | src/components/FunnelCampaignDialog.tsx:72-76 | of two template edits, the second wins |
| FunnelCampaign.CheckFunnel | src/components/FunnelCampaignDialog.tsx:81-89 | title missing iff blank; blank message iff some template is blank; accepted otherwise |
| FunnelCampaign.BuildFunnel | src/components/FunnelCampaignDialog.tsx:91-106 | fields and funnel copied, kind "funnel", nothing sent; the total is TotalMessages of the audience, the status StatusFor and the next send NextSend of the start date and time |
| FunnelCampaign.FunnelDialog.constructor | src/components/FunnelCampaignDialog.tsx:29-45 | one empty first message, valid |
| FunnelCampaign.FunnelDialog.AddMessage | src/components/FunnelCampaignDialog.tsx:47-61 | adds iff fewer than four messages; the new message has a one-day delay and the next order; validity is kept for a fresh id |
| FunnelCampaign.FunnelDialog.RemoveMessage | src/components/FunnelCampaignDialog.tsx:63-70 | removes iff more than one message; the funnel stays valid (one to four, distinct ids) |
| FunnelCampaign.FunnelDialog.UpdateMessage | src/components/FunnelCampaignDialog.tsx:72-76 | updates by id, keeping validity |
| FunnelCampaign.FunnelDialog.SetForm | src/components/FunnelCampaignDialog.tsx:152-195 | only the form changes |
| FunnelCampaign.FunnelDialog.Submit | src/components/FunnelCampaignDialog.tsx:78-127 | a rejection changes nothing; acceptance hands over BuildFunnel and resets to one message |
| ClientSegment.ToggleTag | src/components/ClientSegmentDialog.tsx:41-50 | flips one tag's membership and nothing else |
| ClientSegment.ToggleItem | src/components/ClientSegmentDialog.tsx:52-61 | flips one dish's membership and nothing else |
| ClientSegment.ToggleTagTwice | src/components/ClientSegmentDialog.tsx:41-44 | toggling twice selects the same tags |
| ClientSegment.TogglesCommute | src/components/ClientSegmentDialog.tsx:41-61 | tag and dish toggles commute |
| ClientSegment.SegmentForm.constructor | src/components/ClientSegmentDialog.tsx:18-29 | empty form, operator "gte" |
| ClientSegment.SegmentForm.TagToggle | src/components/ClientSegmentDialog.tsx:41-50 | toggles the tag, name and description kept |
| ClientSegment.SegmentForm.ItemToggle | src/components/ClientSegmentDialog.tsx:52-61 | toggles the dish, name and description kept |
| ClientSegment.SegmentForm.Edit | src/components/ClientSegmentDialog.tsx:121-189 | sets the edited fields |
| ClientSegment.SegmentForm.Submit | src/components/ClientSegmentDialog.tsx:63-96 | a blank name changes nothing; otherwise the segment (size 100..599) is handed over and the form reset |
| History.FilteredHistory | src/pages/History.tsx:109-111 | exactly the items whose lower-cased title contains the lower-cased term, in order |
| History.CampaignHistory | src/pages/History.tsx:113 | exactly the matching campaigns |
| History.StatusHistory | src/pages/History.tsx:114 | exactly the matching statuses |
| History.EmptyTermKeepsAll | src/pages/History.tsx:109-111 | an empty search shows everything |
| History.TabsPartition | src/pages/History.tsx:113-114 | the two tabs together hold as many items as the search result |
| History.CampaignTabInOrder | src/pages/History.tsx:109-113 | the campaign tab is one filter of the data, in order |
| History.SearchIgnoresCase | src/pages/History.tsx:110 | a term and its lower-cased form find the same items |
| History.TitleFound | src/pages/History.tsx:110 | a title containing the term is found |
| History.BuiltInTabs | src/pages/History.tsx:51-114 | the built-in history shows three campaigns and two statuses |
| Strings.Trim | src/components/CSVImportDialog.tsx:57 | empty iff the text is all white space; otherwise no white space at either end |
| Strings.Split | src/components/CSVImportDialog.tsx:56 | the pieces contain no separator |
| Strings.JoinSplit | src/components/CSVImportDialog.tsx:56 | joining the split pieces gives back the text |
| Strings.Digits | src/components/BlacklistDialog.tsx:33 | only digits, no longer than the text |
| Strings.DigitsAppend | src/components/BlacklistDialog.tsx:33 | the digits of a concatenation are the concatenated digits |
| Strings.ToLower | src/pages/History.tsx:110 | same length, each character lower-cased |
| Strings.BeforeTotal | src/components/StatusScheduler.tsx:101 | `localeCompare` on times orders any two distinct times |
| Strings.BeforeTransitive | src/components/StatusScheduler.tsx:101 | the time order is transitive |
| Lists.Filter | src/pages/History.tsx:109 | keeps exactly the elements satisfying the predicate |
| Lists.FilterIsSubsequence | src/pages/History.tsx:109 | a filter keeps the order |
| Lists.FilterPartition | src/pages/History.tsx:113-114 | the sizes of two complementary filters add up to the list's length |
| Lists.Without | src/components/NewCampaignDialog.tsx:40 | drops every copy of the element, keeping order |
| Lists.AddAbsent | src/components/NewCampaignDialog.tsx:33-37 | appends only when absent, keeping the list distinct |
| Lists.Toggle | src/components/ClientSegmentDialog.tsx:42-44 | flips the element's membership |
| Lists.ToggleTwice | src/components/ClientSegmentDialog.tsx:42-44 | toggling twice restores membership |

## Left out

- Rendering, icons, toasts (including the pause and activate wording) and
  dialog open state, except in the blacklist and CSV import dialogs.
- `crypto.randomUUID`, `Date.now`, `toISOString` and `Math.random` are
  method parameters. The random segment size is constrained to 100..599.
- Reading files (`FileReader`, `file.text()`), media data URLs, the QR
  image, HTTP `Response` and CORS bodies, and console logging.
- The text reviewer and the QR scanner component are not part of this
  model.
- Floating-point percentages shown by the history and campaign cards.
- Strings.Before: `localeCompare` is approximated by code-point order.
  This is exact for the zero-padded `HH:MM` times the scheduler
  compares.
- StatusScheduler.Scheduler.constructor takes the initial list as a
  parameter instead of the two built-in demo statuses.
- Campaign.TotalMessages: requires at most 15 digits, because beyond that
  `parseInt` loses precision.
- Campaign.TotalMessages: "1.2k clientes" reads as 12, by the same
  digit rule.
- Strings.ToLower lower-cases ASCII letters only.
- TemplateBuilder.GeneratePreview requires a name without `$`, because the
  replacement string would otherwise be read as a pattern.
- TemplateBuilder.GeneratePreview fills in only `{{nome}}` and keeps the
  first option. Other variables and a random choice are not in the code.
- FunnelCampaign.UpdateById: updates of the `id` and `order` fields are not
  modelled, because the dialog never issues them.
- FunnelCampaign.FunnelDialog.AddMessage keeps Valid only when the clock id
  is new. Two ids from the same millisecond would let a removal take away
  both messages.
- WhatsappQr.SessionStore.Handle: a `sessionId` that is not a string is
  modelled as absent.
- WhatsappQr.SessionStore.ScanQr: the in-place update of the stored session
  object is modelled as replacing its map entry.
- Plain form-field setters are modelled only as
  ClientSegment.SegmentForm.Edit, FunnelCampaign.FunnelDialog.SetForm and
  NewCampaign.NewCampaignDialog.TypeTag.
