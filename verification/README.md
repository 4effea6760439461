# twm-admin-frontend: verified model of the admin screens' list and string logic

This project models the state logic of the admin front end of a news-scraping
back office. It covers seven screens.

- **ScraperLogModal**: runs a scrape job and shows its streamed log.
  - Each body chunk is split on `"\n"`, blank pieces are dropped and the rest are appended.
  - A failure other than an abort appends one `❌ Error: …` line, and the running flag always drops.
  - Each line gets a colour by keyword, in priority order.
- **AddWebsiteModal**: the website form.
  - Slug generation from the name, in add mode only.
  - The edit-mode merge of the stored site over the defaults, section by section.
  - Field and section updates.
  - The choice of create (POST) or update (PUT) request, and the error path of submit.
- **ClusteredPosts**: a list of clusters of posts.
  - The append-only terminal log and the scan phases.
  - Deleting a post, which drops a cluster once it is empty.
  - Adding a post only when its `_id` is absent.
  - The fuse guard (at least two posts) and the removal of a fused cluster.
  - The 3-character threshold of the post search.
- **EditRewrittenPost**: the post editor.
  - Loading a post with defaults for missing fields.
  - Trim-and-append of categories and tags behind a blank-input guard.
  - Removal by index.
  - The media built from an upload or a generated image.
  - The save payload.
- **WebsitesList**: the case-insensitive search over name and base URL, the status label, the "Showing N sources" count, and the modal state.
- **OriginalPosts**: the "converted" predicate, the single-in-flight rewrite guard and the `rewritingId` lifecycle, delete by id, query building and pagination guards.
- **RawPosts**: query parameters, delete by id, page stepping and its bounds, the reset to page 1 on a new search, and replies whose fields are missing (an `undefined` list makes the table throw, an `undefined` page turns into `NaN` on stepping).

Module layout:

- One module per screen: `ScraperLog`, `AddWebsite`, `Clusters`, `RewrittenPostEditor`, `WebsiteList`, `OriginalPostList` and `RawPostList`.
  - Each screen's state is a `class` whose fields are the component's `useState` variables.
  - Each handler is a method with a `modifies` frame.
  - A handler that awaits between two state changes is split into `Begin…` and `Finish…` methods.
  - What the network or a dialog returns is an input to the method.
  - The pure expressions inside the handlers are functions, with lemmas about them.
- `JsText` holds the JavaScript string operations the screens use:
  - `trim` over the ECMAScript white-space and line-terminator set;
  - `split` on one character and `includes`;
  - ASCII `toLowerCase`;
  - UTF-16 `length`;
  - the decimal rendering of numbers in template literals.
- `Seqs` holds `Array.prototype.filter`, filtering by key, and the two ways the screens drop an element by position.
- `Endpoints` holds the API addresses of `src/config.js`.

## Model

| member | source | states |
|---|---|---|
| ScraperLog.ScraperLogModal.constructor | src/components/ScraperLogModal.jsx:7-11 | the log starts empty, not running, with no abort controller |
| ScraperLog.ScraperLogModal.Begin | src/components/ScraperLogModal.jsx:34-36 | a run empties the log, sets the running flag and creates a fresh (unaborted) controller |
| ScraperLog.ScraperLogModal.ReceiveChunk | src/components/ScraperLogModal.jsx:59-62 | a chunk appends exactly its own non-blank `split("\n")` pieces; the old log is a prefix of the new one |
| ScraperLog.ScraperLogModal.Finish | src/components/ScraperLogModal.jsx:64-70 | a non-abort failure appends its one error line, an abort appends nothing; the running flag is false on every ending |
| ScraperLog.ScraperLogModal.StartScrape | src/components/ScraperLogModal.jsx:33-71 | the read loop ends with the log `FinalLog(chunks, ending)`, not running, the controller aborted iff the ending was an abort |
| ScraperLog.ScraperLogModal.RunEffect | src/components/ScraperLogModal.jsx:20-23 | a run happens iff the modal is open and the website id is truthy; a run leaves the final log, not running, a controller, and aborted exactly when the run ended by abort; otherwise no state changes |
| ScraperLog.ScraperLogModal.Cleanup | src/components/ScraperLogModal.jsx:26-30 | cleanup aborts the controller exactly when one exists |
| ScraperLog.NonBlankIsFilter | src/components/ScraperLogModal.jsx:60 | the recursive blank-dropping of a chunk's pieces is `pieces.filter(line => line.trim() !== "")` |
| ScraperLog.ChunkLinesAreNonBlankPieces | src/components/ScraperLogModal.jsx:59-60 | every entry a chunk gives is non-blank and holds no line break; every non-blank piece is kept, in order |
| ScraperLog.StreamedEntriesAreLines | src/components/ScraperLogModal.jsx:54-63 | every streamed entry, over any number of chunks, is non-blank and holds no line break |
| ScraperLog.LogAfterOneMore | src/components/ScraperLogModal.jsx:62 | one more read appends that chunk's lines at the end |
| ScraperLog.LogGrowsByAppending | src/components/ScraperLogModal.jsx:62 | the log after any prefix of the reads is a prefix of the final streamed log |
| ScraperLog.LogOfConcatenatedReads | src/components/ScraperLogModal.jsx:54-63 | the log of two runs of reads is the concatenation of their logs |
| ScraperLog.LogOfOneChunk | src/components/ScraperLogModal.jsx:59-62 | one read gives exactly the lines of that chunk |
| ScraperLog.LogOfTwoChunks | src/components/ScraperLogModal.jsx:59-62 | two reads give the first chunk's lines followed by the second's |
| ScraperLog.SingleLineChunk | src/components/ScraperLogModal.jsx:59-60 | a chunk with no line break and some visible text is one entry |
| ScraperLog.ChunkOfOneLine | src/components/ScraperLogModal.jsx:59-60 | one visible line followed by a line break is one entry (the empty tail piece is dropped) |
| ScraperLog.ChunkOfTwoLines | src/components/ScraperLogModal.jsx:59-60 | two visible lines, each followed by a line break, are two entries in order |
| ScraperLog.LineCutByChunkBoundary | src/components/ScraperLogModal.jsx:59-62 | a line delivered in two chunks becomes two entries, where the same text in one chunk is one entry (no carry-over) |
| ScraperLog.ScenarioBlankPieces | src/components/ScraperLogModal.jsx:60 | `"a\n\n\nb\n"` gives `["a", "b"]` |
| ScraperLog.ScenarioFirstChunk | src/components/ScraperLogModal.jsx:59-60 | `"Found 5 items\nSaved post A\n"` gives its two lines |
| ScraperLog.ScenarioSecondChunk | src/components/ScraperLogModal.jsx:59-60 | `"Error: timeout\n"` gives one line |
| ScraperLog.ScenarioTwoChunksLog | src/components/ScraperLogModal.jsx:54-63 | those two chunks give the three lines in arrival order |
| ScraperLog.ScenarioCutHead | src/components/ScraperLogModal.jsx:59-60 | the head `"Found 5 ite"` of a cut line is an entry by itself |
| ScraperLog.ScenarioCutTail | src/components/ScraperLogModal.jsx:59-60 | the tail `"ms\n"` of a cut line is an entry by itself |
| ScraperLog.ScenarioCutLine | src/components/ScraperLogModal.jsx:59-62 | `"Found 5 ite"` then `"ms\n"` is logged as two entries `"Found 5 ite"`, `"ms"` |
| ScraperLog.EndingLines | src/components/ScraperLogModal.jsx:64-67 | the ending adds one line exactly when it is a failure other than an abort |
| ScraperLog.FinalLog | src/components/ScraperLogModal.jsx:54-67 | the streamed log is a prefix of the final log; a non-abort failure adds exactly one last line `❌ Error: <message>` |
| ScraperLog.ClassifyIsFirstMatch | src/components/ScraperLogModal.jsx:124-132 | the colour is the first matching rule of the list Error > Success/Saved > Found > plain |
| ScraperLog.ErrorLineIsErrorTone | src/components/ScraperLogModal.jsx:66 | the synthetic error line always renders in the error colour |
| ScraperLog.LowerCaseErrorIsPlain | src/components/ScraperLogModal.jsx:124-132 | the keyword test is case-sensitive: `"error"` renders plain |
| ScraperLog.ScenarioTones | src/components/ScraperLogModal.jsx:124-132 | "Found 5 items" is info, "Saved post A" success, "Error: timeout" error |
| ScraperLog.RowsFrom | src/components/ScraperLogModal.jsx:118-132 | one row per entry, numbered consecutively, with its own text and its colour |
| ScraperLog.Render | src/components/ScraperLogModal.jsx:118-122 | the displayed numbers are the 1-based positions in the log |
| ScraperLog.ScenarioTwoChunksRender | src/components/ScraperLogModal.jsx:118-132 | the three scenario lines render as rows 1, 2, 3 in info, success and error colours |
| AddWebsite.SkipRun | src/components/AddWebsiteModal.jsx:88 | skipping a run of non-`[a-z0-9]` characters stops at a slug character or the end |
| AddWebsite.CollapseRunsShape | src/components/AddWebsiteModal.jsx:88 | replacing runs by `-` gives only `[a-z0-9-]` and never `--` |
| AddWebsite.SlugifyWellFormed | src/components/AddWebsiteModal.jsx:86-89 | the slug is in `[a-z0-9-]`, has no `--` and no leading or trailing `-` |
| AddWebsite.SlugAlphabet | src/components/AddWebsiteModal.jsx:86-88 | every slug character is in `a-z`, `0-9` or `-` |
| AddWebsite.SlugEdges | src/components/AddWebsiteModal.jsx:88-89 | the slug neither begins nor ends with `-` and does not contain `--` |
| AddWebsite.SkipRunKeepsSlugChars | src/components/AddWebsiteModal.jsx:88 | a skipped run holds no `[a-z0-9]` character |
| AddWebsite.CollapseRunsKeepsSlugChars | src/components/AddWebsiteModal.jsx:88 | the collapsed text without `-` is exactly the `[a-z0-9]` characters of the input, in order |
| AddWebsite.StripEdgeDashKeepsOthers | src/components/AddWebsiteModal.jsx:89 | stripping the edge dashes removes no other character |
| AddWebsite.SlugKeepsNameCharacters | src/components/AddWebsiteModal.jsx:86-89 | the slug without `-` is exactly the `[a-z0-9]` characters of the lowercased name, in order |
| AddWebsite.CollapseRunsFixed | src/components/AddWebsiteModal.jsx:88 | text already in `[a-z0-9-]` without `--` is unchanged by the run replacement |
| AddWebsite.SlugIsFixedPoint | src/components/AddWebsiteModal.jsx:86-89 | a well-formed slug is its own slug |
| AddWebsite.SlugifyIdempotent | src/components/AddWebsiteModal.jsx:86-89 | slugifying a slug changes nothing |
| AddWebsite.MergedSection | src/components/AddWebsiteModal.jsx:50-57 | a merged section has the default keys and the stored keys; stored values win, defaults fill the rest |
| AddWebsite.EditFormTopLevel | src/components/AddWebsiteModal.jsx:47-49 | the edit form has every default and every stored key; stored top-level values win over defaults |
| AddWebsite.EditFormMerge | src/components/AddWebsiteModal.jsx:47-58 | each nested section of the edit form is that section's key-by-key merge, so every default nested key is present |
| AddWebsite.EditFormDefaultSections | src/components/AddWebsiteModal.jsx:50-57 | a stored site without sections gets the default sections back |
| AddWebsite.InputValue | src/components/AddWebsiteModal.jsx:71 | a checkbox stores `checked`, any other input stores `value` |
| AddWebsite.FieldKey | src/components/AddWebsiteModal.jsx:78 | the nested key is `subField` when given, otherwise the input's name |
| AddWebsite.SectionChange | src/components/AddWebsiteModal.jsx:73-80 | a sectioned change sets exactly `form[section][key]`; all other sections and keys are unchanged |
| AddWebsite.Changed | src/components/AddWebsiteModal.jsx:69-93 | a change routes to the section or to the top-level name; a name change in add mode also sets the slug of the new name |
| AddWebsite.SlugFollowsName | src/components/AddWebsiteModal.jsx:85-91 | in add mode a name change leaves a slug that is the well-formed slug of the name; in edit mode the slug is untouched |
| AddWebsite.SubmitRequest | src/components/AddWebsiteModal.jsx:103-115 | PUT `WEBSITES/<_id>` iff editing, else POST `WEBSITES`; the body is the form |
| AddWebsite.UpdateUrlsDistinct | src/components/AddWebsiteModal.jsx:103-105 | sites with different ids are updated at different addresses, none equal to the create address |
| AddWebsite.RefusalTextNonEmpty | src/components/AddWebsiteModal.jsx:120-122 | the refusal text is `data.message` when truthy, otherwise "Operation failed"; it is never empty |
| AddWebsite.SubmitError | src/components/AddWebsiteModal.jsx:118-127 | no error iff the reply is ok; a thrown error gives its message; a refusal gives the refusal text |
| AddWebsite.AddWebsiteModal.constructor | src/components/AddWebsiteModal.jsx:13-39 | the form starts as the defaults, not loading, no error, on the "basic" tab |
| AddWebsite.AddWebsiteModal.Populate | src/components/AddWebsiteModal.jsx:42-66 | opening fills the edit-mode merge or the defaults, resets the tab and the error; a closed modal changes nothing |
| AddWebsite.AddWebsiteModal.HandleChange | src/components/AddWebsiteModal.jsx:69-93 | the form becomes `Changed(old form, input, section, subField, editing)` |
| AddWebsite.AddWebsiteModal.BeginSubmit | src/components/AddWebsiteModal.jsx:96-116 | submit sets loading, clears the error and sends the request of `SubmitRequest` |
| AddWebsite.AddWebsiteModal.FinishSubmit | src/components/AddWebsiteModal.jsx:118-130 | the modal closes iff the reply is ok; otherwise the error is set; loading is false on every path |
| Clusters.TotalPostsConcat | src/pages/ClusteredPosts.jsx:101-111 | the post count of a concatenation is the sum of the counts |
| Clusters.TotalPostsUpdate | src/pages/ClusteredPosts.jsx:103 | replacing one cluster changes the count by the difference of the two sizes |
| Clusters.TotalPostsRemoveAt | src/pages/ClusteredPosts.jsx:108 | dropping a cluster removes exactly its posts from the count |
| Clusters.WithoutPost | src/pages/ClusteredPosts.jsx:101-111 | the post is spliced out of its cluster, the cluster is dropped when empty, the other clusters keep their place and order |
| Clusters.WithoutPostCounts | src/pages/ClusteredPosts.jsx:101-111 | deleting an existing post lowers the total by exactly one; no cluster is ever left empty |
| Clusters.WithPost | src/pages/ClusteredPosts.jsx:139-150 | a post whose `_id` is present leaves the cluster unchanged; otherwise it is appended at the end |
| Clusters.WithPostProperties | src/pages/ClusteredPosts.jsx:139-150 | after adding, the id is present; unique ids stay unique; adding twice equals adding once |
| Clusters.ScanEndLogs | src/pages/ClusteredPosts.jsx:72-95 | the log lines of each scan ending: an error line on failure, the success or "no duplicates" sequence otherwise |
| Clusters.DetectedCountIsClusterCount | src/pages/ClusteredPosts.jsx:80-84 | the "Detected N related content groups" line names the number of clusters found |
| Clusters.SearchRequest | src/pages/ClusteredPosts.jsx:121-126 | a search is sent iff the UTF-16 length is at least 3, to `ORIGINAL_POSTS?keyword=<query>` |
| Clusters.SearchThreshold | src/pages/ClusteredPosts.jsx:123 | queries of at most 1 character are never sent, of at least 3 always; for BMP text the threshold is exactly 3 characters |
| Clusters.FuseRequest | src/pages/ClusteredPosts.jsx:155-179 | a fuse request is sent iff the cluster has at least 2 posts and the user confirms, and it carries exactly the cluster's posts |
| Clusters.FuseGuardMatchesButton | src/pages/ClusteredPosts.jsx:158-165 | an enabled fuse button (its `disabled` test is at line 353) always passes the handler's size guard and a confirmed click sends the cluster; a cluster failing the guard always has a disabled button and sends nothing; a disabled button on a cluster that passes the guard means that cluster is the one being fused |
| Clusters.ClusteredPosts.constructor | src/pages/ClusteredPosts.jsx:23-38 | no clusters, no logs, terminal hidden, not scanning, nothing fusing, add modal closed with an empty search |
| Clusters.ClusteredPosts.AddLog | src/pages/ClusteredPosts.jsx:46-49 | exactly one entry is appended, its type defaulting to "info" |
| Clusters.ClusteredPosts.BeginScan | src/pages/ClusteredPosts.jsx:53-60 | a scan shows the terminal, sets scanning, empties the clusters and starts the log with the two opening lines |
| Clusters.ClusteredPosts.StartEmbedding | src/pages/ClusteredPosts.jsx:64-65 | the embedding line is appended |
| Clusters.ClusteredPosts.FinishScan | src/pages/ClusteredPosts.jsx:62-98 | the ending's lines are appended; clusters become the found ones (or [] when absent) on success; scanning is false on every path |
| Clusters.ClusteredPosts.CloseTerminal | src/pages/ClusteredPosts.jsx:86 | the delayed close hides the terminal |
| Clusters.ClusteredPosts.DeleteItem | src/pages/ClusteredPosts.jsx:101-111 | the clusters become `WithoutPost(old clusters, clusterIndex, postIndex)` |
| Clusters.ClusteredPosts.OpenAddModal | src/pages/ClusteredPosts.jsx:113-118 | the add modal opens on the given cluster with an empty query and no results |
| Clusters.ClusteredPosts.SearchPosts | src/pages/ClusteredPosts.jsx:120-126 | the query is always stored; the request is `SearchRequest(query)` |
| Clusters.ClusteredPosts.ReceiveSearchResults | src/pages/ClusteredPosts.jsx:129-130 | the results are the reply's posts, or [] when absent |
| Clusters.ClusteredPosts.AddPostToCluster | src/pages/ClusteredPosts.jsx:136-154 | a present id changes nothing; otherwise the post is appended to the active cluster and the modal closes |
| Clusters.ClusteredPosts.BeginFuse | src/pages/ClusteredPosts.jsx:155-179 | sends `FuseRequest` for the cluster; after a send `fusingId` is that cluster and its button is disabled; otherwise `fusingId` is unchanged |
| Clusters.ClusteredPosts.FinishFuse | src/pages/ClusteredPosts.jsx:181-210 | a successful fuse removes exactly that cluster by index-filter, keeping the rest in order; `fusingId` is reset on every path |
| RewrittenPostEditor.Loaded | src/components/EditRewrittenPost.jsx:37-50 | a post fills missing text with "" and missing lists with [], and clears both inputs; no post keeps the form |
| RewrittenPostEditor.WithItem | src/components/EditRewrittenPost.jsx:53-60 | a blank value changes nothing; otherwise the trimmed value is appended and only that field's input is cleared |
| RewrittenPostEditor.WithItemGuard | src/components/EditRewrittenPost.jsx:54-57 | the guard is exactly "whitespace only"; an appended item is non-empty and has no edge whitespace |
| RewrittenPostEditor.WithoutItem | src/components/EditRewrittenPost.jsx:62-67 | removing index `i` drops exactly that element of that list; an out-of-range index changes nothing; other fields unchanged |
| RewrittenPostEditor.RemoveUndoesAdd | src/components/EditRewrittenPost.jsx:53-67 | removing the last added item restores the list |
| RewrittenPostEditor.UploadedMedia | src/components/EditRewrittenPost.jsx:88-92 | the type is "video" iff `resource_type` is "video", otherwise "image"; url and public id come from the reply |
| RewrittenPostEditor.GeneratedImage | src/components/EditRewrittenPost.jsx:125 | a generated image is an image with the reply's url and the caption "AI Generated" |
| RewrittenPostEditor.SavePayload | src/components/EditRewrittenPost.jsx:146-153 | the payload carries exactly title, excerpt, content, categories, tags and media |
| RewrittenPostEditor.PayloadIgnoresInputs | src/components/EditRewrittenPost.jsx:146-153 | the typed-but-not-added inputs never reach the payload |
| RewrittenPostEditor.AddingAnItemSavesOnlyThatList | src/components/EditRewrittenPost.jsx:55-58 | adding an item changes only that list in the payload, by appending the trimmed value |
| RewrittenPostEditor.EditRewrittenPost.constructor | src/components/EditRewrittenPost.jsx:21-35 | an empty form, nothing loading, generating or uploading |
| RewrittenPostEditor.EditRewrittenPost.LoadPost | src/components/EditRewrittenPost.jsx:37-50 | the form becomes `Loaded(old form, post)` |
| RewrittenPostEditor.EditRewrittenPost.TypeCategory | src/components/EditRewrittenPost.jsx:254-256 | typing sets only the category input |
| RewrittenPostEditor.EditRewrittenPost.TypeTag | src/components/EditRewrittenPost.jsx:293-295 | typing sets only the tag input |
| RewrittenPostEditor.EditRewrittenPost.AddItem | src/components/EditRewrittenPost.jsx:53-60 | the form becomes `WithItem(old form, field, value)` |
| RewrittenPostEditor.EditRewrittenPost.RemoveItem | src/components/EditRewrittenPost.jsx:62-67 | the form becomes `WithoutItem(old form, field, index)` |
| RewrittenPostEditor.EditRewrittenPost.BeginUpload | src/components/EditRewrittenPost.jsx:69-73 | an upload starts iff a file was chosen, and then sets `uploading` |
| RewrittenPostEditor.EditRewrittenPost.FinishUpload | src/components/EditRewrittenPost.jsx:86-99 | a reply appends its media item to the end of the media; a failure keeps the form; `uploading` is false on every path |
| RewrittenPostEditor.EditRewrittenPost.BeginGenerate | src/components/EditRewrittenPost.jsx:102-115 | sets the generating flag; the prompt is the title followed by " high quality news photo" |
| RewrittenPostEditor.EditRewrittenPost.FinishGenerate | src/components/EditRewrittenPost.jsx:118-133 | a truthy url appends the generated image; anything else keeps the form; the flag is false on every path |
| RewrittenPostEditor.EditRewrittenPost.BeginSave | src/components/EditRewrittenPost.jsx:136-154 | sets loading and sends `SavePayload(form)` to `REWRITTEN_POSTS/<_id>` |
| RewrittenPostEditor.EditRewrittenPost.FinishSave | src/components/EditRewrittenPost.jsx:156-166 | the editor closes iff the reply is ok; loading is false on every path |
| WebsiteList.FilteredMembers | src/pages/WebsitesList.jsx:59-63 | a site is shown iff its lowercased name or base URL contains the lowercased term; the shown sites keep their order |
| WebsiteList.EmptyTermShowsAll | src/pages/WebsitesList.jsx:59-63 | an empty term shows every site |
| WebsiteList.SearchIgnoresTermCase | src/pages/WebsitesList.jsx:61-62 | searching for a term and for its lowercase shows the same sites |
| WebsiteList.ShowingCountsShownSites | src/pages/WebsitesList.jsx:277 | "Showing N sources" names the number of sites shown |
| WebsiteList.StatusLabel | src/pages/WebsitesList.jsx:66-76 | the badge reads "Active" iff the site is active, "Inactive" otherwise |
| WebsiteList.WebsitesList.constructor | src/pages/WebsitesList.jsx:20-31 | no sites, loading, no error, empty search, both modals closed, no active scrape site |
| WebsiteList.WebsitesList.RunScraper | src/pages/WebsitesList.jsx:32-35 | the active site becomes `(id, name)` and the log modal opens |
| WebsiteList.WebsitesList.FinishFetch | src/pages/WebsitesList.jsx:40-52 | a reply replaces the sites; a refusal sets "Failed to fetch websites"; a thrown error sets its message; loading ends on every path |
| WebsiteList.WebsitesList.SetSearchTerm | src/pages/WebsitesList.jsx:129 | the term is stored |
| WebsiteList.WebsitesList.OpenAdd | src/pages/WebsitesList.jsx:108-111 | the form modal opens in add mode |
| WebsiteList.WebsitesList.OpenEdit | src/pages/WebsitesList.jsx:241-244 | the form modal opens on the given site |
| WebsiteList.WebsitesList.CloseModal | src/pages/WebsitesList.jsx:291 | the form modal closes |
| WebsiteList.WebsitesList.CloseLogModal | src/pages/WebsitesList.jsx:299-303 | the log modal closes and the list is fetched again |
| OriginalPostList.ConvertStep | src/pages/OriginalPosts.jsx:96-112 | a click requests the rewrite of that post iff no rewrite is in flight and the user confirms |
| OriginalPostList.OneRewriteAtATime | src/pages/OriginalPosts.jsx:97-110 | after a started rewrite of a post with an id, that post's button is disabled and every further click on any post requests nothing until the rewrite finishes; with nothing in flight a confirmed click always starts one |
| OriginalPostList.EmptyIdDoesNotBlock | src/pages/OriginalPosts.jsx:97-110 | a rewrite started for a post with an empty id does not block the next confirmed click, since the empty id is falsy |
| OriginalPostList.ConvertButtonRule | src/pages/OriginalPosts.jsx:314 | an enabled button (with `isConverted` from lines 237-239) means the post is not converted and not the one being rewritten; a converted post's button is disabled although the handler itself would still start its rewrite |
| OriginalPostList.PostsQueryKeyword | src/pages/OriginalPosts.jsx:43-44 | the query holds `&keyword=` iff the term is non-empty, followed by exactly the term; it always starts with the page address |
| OriginalPostList.WithoutPostRemovesExactly | src/pages/OriginalPosts.jsx:81 | deleting removes every post with that id and keeps every other post, in order |
| OriginalPostList.StepsStayInRange | src/pages/OriginalPosts.jsx:361-377 | from a page in range, an enabled step lands in `[1, totalPages]` |
| OriginalPostList.NextEnabledPastLastPage | src/pages/OriginalPosts.jsx:375-376 | past the last page, Next stays enabled and steps further out |
| OriginalPostList.OriginalPosts.constructor | src/pages/OriginalPosts.jsx:23-29 | no posts, loading, empty search, page 1, zero totals, nothing rewriting |
| OriginalPostList.OriginalPosts.BeginFetch | src/pages/OriginalPosts.jsx:40-44 | sets loading; the address is `PostsQuery(page, searchTerm)` |
| OriginalPostList.OriginalPosts.FinishFetch | src/pages/OriginalPosts.jsx:49-58 | missing reply fields default to [], 0 and 0; a failure keeps the list; loading ends on every path |
| OriginalPostList.OriginalPosts.SetSearchTerm | src/pages/OriginalPosts.jsx:204 | the term is stored and the page is kept |
| OriginalPostList.OriginalPosts.Delete | src/pages/OriginalPosts.jsx:62-93 | the post is removed iff the user confirms and the request does not throw |
| OriginalPostList.OriginalPosts.BeginConvert | src/pages/OriginalPosts.jsx:96-112 | requests `ConvertStep` for the click; `rewritingId` becomes the post's id exactly when a request is sent, and the post's button is then disabled |
| OriginalPostList.OriginalPosts.FinishConvert | src/pages/OriginalPosts.jsx:136-155 | `rewritingId` is null again on every path; the list is refetched iff the reply is ok |
| OriginalPostList.OriginalPosts.PrevPage | src/pages/OriginalPosts.jsx:365-366 | Previous steps the page down by exactly 1 |
| OriginalPostList.OriginalPosts.NextPage | src/pages/OriginalPosts.jsx:375-376 | Next steps the page up by exactly 1 |
| RawPostList.Stored | src/pages/RawPosts.jsx:40-42 | a reply field is stored as that page number when present and as `undefined` when missing |
| RawPostList.Step | src/pages/RawPosts.jsx:256-264 | stepping a page number moves it by exactly the step; stepping `undefined` or `NaN` gives `NaN` |
| RawPostList.PageArgText | src/pages/RawPosts.jsx:29-34 | the `pageNumber` text is the decimal page, `1` for an `undefined` argument (the default parameter) and `NaN` for `NaN` |
| RawPostList.QueryParams | src/pages/RawPosts.jsx:33-35 | `pageNumber` is always the first parameter; `keyword` is added iff the term is non-empty |
| RawPostList.MissingPageQuery | src/pages/RawPosts.jsx:29-34 | an `undefined` page requests page 1 and a `NaN` page requests `NaN` |
| RawPostList.PageNotANumberSticks | src/pages/RawPosts.jsx:256-264 | once the page is not a number both step buttons are enabled and stepping never gives a number again |
| RawPostList.QueryNamesPage | src/pages/RawPosts.jsx:34 | the `pageNumber` value is the decimal digits of the page |
| RawPostList.WithoutArticleRemovesExactly | src/pages/RawPosts.jsx:102 | deleting removes exactly the articles with that id, keeps the rest in order, and is idempotent |
| RawPostList.RawPosts.constructor | src/pages/RawPosts.jsx:18-22 | no articles, loading, page 1, zero pages, empty search |
| RawPostList.RawPosts.BeginFetch | src/pages/RawPosts.jsx:29-35 | sets loading and requests the page argument's text with the current search term |
| RawPostList.RawPosts.SearchChanged | src/pages/RawPosts.jsx:57-62 | a new term is stored and page 1 is requested |
| RawPostList.RawPosts.PageChanged | src/pages/RawPosts.jsx:65-67 | a page change requests the current page |
| RawPostList.RawPosts.FinishFetch | src/pages/RawPosts.jsx:36-47 | a reply's articles, page and page count are stored as they are, each missing one as `undefined`; the table (line 174) throws iff the reply had no list; a failure keeps all three; loading ends on every path |
| RawPostList.RawPosts.Delete | src/pages/RawPosts.jsx:90-106 | the articles with that id are removed iff the user confirms, the request does not throw and the list is defined |
| RawPostList.RawPosts.PrevPage | src/pages/RawPosts.jsx:256-257 | an enabled Previous steps a number down by exactly 1, stays at least 1 and within range; a page that is not a number stays `NaN` |
| RawPostList.RawPosts.NextPage | src/pages/RawPosts.jsx:263-264 | an enabled Next steps a number up by exactly 1 and stays at most the total and at least 1; a page that is not a number stays `NaN` |
| JsText.TrimStartSpec | src/components/ScraperLogModal.jsx:60 | `trimStart` removes a whitespace prefix and stops at a non-whitespace character |
| JsText.TrimEndSpec | src/components/ScraperLogModal.jsx:60 | `trimEnd` removes a whitespace suffix and stops at a non-whitespace character |
| JsText.TrimHasNoEdgeWhitespace | src/components/EditRewrittenPost.jsx:57 | a trimmed string has no whitespace at either end |
| JsText.TrimEmptyIff | src/components/EditRewrittenPost.jsx:54 | `trim()` is empty iff the string is whitespace only |
| JsText.TrimIsSlice | src/components/EditRewrittenPost.jsx:57 | a trimmed string is a contiguous slice of the original |
| JsText.Lower | src/pages/WebsitesList.jsx:61-62 | `toLowerCase` keeps the length and lowers each character on its own |
| JsText.LowerChar | src/pages/WebsitesList.jsx:61-62 | `A-Z` map to `a-z`; every other character is unchanged |
| JsText.LowerIdempotent | src/pages/WebsitesList.jsx:61-62 | lowering twice equals lowering once |
| JsText.Split | src/components/ScraperLogModal.jsx:60 | `split` returns at least one piece and no piece holds the separator |
| JsText.JoinSplit | src/components/ScraperLogModal.jsx:60 | joining the pieces with the separator gives back the text |
| JsText.SplitJoin | src/components/ScraperLogModal.jsx:60 | splitting joined separator-free pieces gives back the pieces |
| JsText.SplitAfterPiece | src/components/ScraperLogModal.jsx:60 | a piece followed by the separator is split off as the first piece |
| JsText.SplitWithoutSeparator | src/components/ScraperLogModal.jsx:60 | a text without the separator is one piece |
| JsText.Utf16Length | src/pages/ClusteredPosts.jsx:123 | `length` counts between one and two units per character |
| JsText.Utf16LengthOfBmp | src/pages/ClusteredPosts.jsx:123 | for text in the Basic Multilingual Plane `length` is the number of characters |
| JsText.NatToString | src/pages/ClusteredPosts.jsx:82 | a number renders as decimal digits without a leading zero |
| JsText.ParseNatToString | src/pages/ClusteredPosts.jsx:82 | the rendered digits read back as the number |
| JsText.IntToString | src/pages/OriginalPosts.jsx:43 | a negative number renders as `-` followed by its magnitude's digits |
| Seqs.RemoveAt | src/pages/ClusteredPosts.jsx:103 | `splice(i, 1)` drops exactly position `i` and keeps the rest in order; an index outside the array removes nothing |
| Seqs.ExceptPositionIsRemoveAt | src/pages/ClusteredPosts.jsx:202 | `filter((_, idx) => idx !== i)` is the same as dropping position `i` |
| Seqs.WithoutKeyProperties | src/pages/OriginalPosts.jsx:81 | filtering by key removes every element with that key, keeps every other in order, and is idempotent |
| Seqs.FilterMembers | src/pages/WebsitesList.jsx:59-63 | `filter` keeps an element iff it is in the array and satisfies the test |
| Seqs.FilterIsSubsequence | src/pages/WebsitesList.jsx:59-63 | `filter` keeps elements in their original order |

## Left out

- Every `fetch`, its bearer token and the JSON parsing of replies. Their outcomes (ok or not, message, returned data, a thrown error) are inputs to the `Finish…` methods. This includes the Cloudinary upload and the image-generation call.
- `TextDecoder`. Byte decoding is a foreign call, so chunks are modelled as already-decoded strings. The code decodes each chunk independently, so a multi-byte character split across chunks is not modelled.
- `AbortController` and the interleaving of asynchronous React updates. Abort is an input ending of the read loop, and concurrency is not modelled.
- The scrape request's address and method in ScraperLogModal. The code never checks `response.ok`, so the model takes whatever body the server streams.
- `setTimeout` delays and the search debounce of RawPosts. These only affect timing; the delayed actions are separate methods.
- SweetAlert, `alert` and `window.confirm`. A confirmation is a boolean input, and purely informational dialogs are not modelled.
- The clock time stored in each terminal log entry of ClusteredPosts. It comes from `toLocaleTimeString`.
- Unicode `toLowerCase`. Lowering is ASCII only.
- `URLSearchParams` percent-encoding in RawPosts. The query is modelled as its list of name/value pairs.
- The raw `${query}` and `${searchTerm}` interpolation in the other screens. It is modelled as plain concatenation, which is what the code does.
- Clusters.ClusteredPosts.DeleteItem and Clusters.ClusteredPosts.AddPostToCluster: modelled on values. The code's shallow copy shares the inner cluster arrays with the previous state and mutates them in place, so that aliasing is not captured.
- OriginalPostList.OriginalPosts.Delete: works on the current list. The code filters the `posts` captured when the handler was created, so a stale closure is not captured.
- Spreading a non-object value (a string or an array) in the website form. The value model has no arrays, and such spreads give nothing here.
- JSON key order in request bodies.
- RawPostList.RawPosts.FinishFetch: a reply field that is present but `null` is not modelled; JSON `null` compares and subtracts like 0, unlike `undefined`.
- RawPosts `handleBulkConvert`. It posts to a hard-coded remote address and only shows an alert.
- JSX, styling, icons, auto-scroll, routing, authentication and the display-only screens.
- Post fields the screens do not read.
- WebsiteList.WebsitesList.RunDisabled: the Run button's disabled test compares `scrapingId`, which no handler ever sets, so the test is always false.

## Code as written

The model follows the code wherever it differs from the behaviour the screens are meant to have:

- **No line buffer between chunks.** A line split across two chunks becomes two log entries (`LineCutByChunkBoundary`, `ScenarioCutLine`). Joining the halves would need a carry-over buffer, which the code does not keep.
- **No `response.ok` check in the scraper.** An error reply's body is logged like any other output, and the log shows no error line.
- **No run status values.** Only the running flag and the abort exist. There is no finished, cancelled or errored status.
- **Search keeps the page in OriginalPosts.** Changing the search term keeps the current page, and Next is disabled only when `page === totalPages`. A page beyond a shorter result list therefore leaves Next enabled (`NextEnabledPastLastPage`). RawPosts instead requests page 1 and uses `>=`.
- **Only the button blocks converted posts.** `handleConvert` checks only `rewritingId`, so a converted post is kept from a second rewrite by its disabled button alone (`ConvertButtonRule`). A post with an empty `_id` does not block further rewrites, because the empty id is falsy (`EmptyIdDoesNotBlock`).
- **No status check in RawPosts.** The list reply is stored without checking the status. An error body leaves the list `undefined`, and then the table throws when it reads `articles.length`. A missing page becomes `NaN` once stepped, and both step buttons stay enabled (`FinishFetch`, `PageNotANumberSticks`).
