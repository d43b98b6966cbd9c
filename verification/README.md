# Conversational file locator — Dafny model

This project models the core of a chat assistant that finds a file in a user's
OneDrive and SharePoint stores, checks that the user can open it, and mails them
the link. The model has three parts:

- **The conversation engine** (`chat.dfy`, module `Chat`). This is the `/chat` endpoint
  as a pure step function. It takes a session (stage, last query, found files), the
  credentials and one message, and returns the new session, the reply and the
  notification mail, if one is sent. The three stages are `start`,
  `awaiting_query` and `awaiting_selection`. The replies form a datatype, and
  `Chat.Render` gives each one's exact text.
- **The discovery pipeline** (`graph.dfy`, module `Graph`). It covers:
  - `search_all_files`: the personal-drive search, draining the paginated site
    listing, the per-site drive listing and per-drive search, site tagging, the
    fallback to recent files and the final top-5 ranking;
  - `fetch_recent_files` and `tag_site_id`;
  - the permission predicate of `check_file_access`.
- **The similarity ranker** (`ranking.dfy`, module `Ranking`). This is
  `rank_files_by_similarity`: order by non-increasing score, cut to `top_k` with
  Python slice semantics, and annotate each kept record with its score.

Supporting modules:

- `wrappers.dfy` (`Option`).
- `items.dfy`: the file record.
- `text.dfy`: the Python string semantics the engine relies on. These are
  `str.lower()`, `str.strip()`, `int()` on a string, and the decimal rendering of
  list numbers.

Collaborators the core cannot see are parameters:

- Every Graph HTTP exchange is an oracle in `Graph.Graph`. Each response is a
  status code plus the `value` list of its JSON body.
  - The site listing is a sequence of page responses in request order.
  - Drive listings are keyed by site id.
  - Searches are keyed by scope and query.
  - Permission listings are keyed by endpoint.
- The embedding model is an abstract score function `sim(query, name): real`.
- The chat turn receives four collaborators as functions in `Chat.Collaborators`:
  the intent classifier, the general answerer, the file search and the access check.
  `Chat.PipelineListsEverything` instantiates the search with `Graph.Discover`.

Behaviours of the code a reader might not expect:

- The ranked list is non-increasing in score, not strictly decreasing: equal
  scores are possible. No particular order among ties is claimed.
- After a numbered selection, `found_files` is kept as it was (app.py:109-116).
  It is neither cleared nor replaced. What does hold is the invariant
  `Chat.Invariant`: in `awaiting_selection` the stored list is non-empty and a
  query is recorded.
- `home()` resets the stage and `found_files` but keeps `last_query` (app.py:17-18).
- A non-200 permission listing is skipped rather than treated as a denial. Denial
  is the overall result only when no listing grants.
- When several candidates match the query exactly, the first one is resolved.

## Model

| member | source | states |
|---|---|---|
| Chat.Chat | app.py:53-120 | A turn without a token or email replies "not logged in" and leaves the session untouched. The first turn of a conversation greets and moves to awaiting_query. Every turn preserves the invariant that awaiting_selection holds a non-empty file list and a query. A link mail goes only to the signed-in user, together with the success reply for that link. Only a listing reply can enter awaiting_selection. |
| Chat.QueryTurn | app.py:67-101 | With a general_response intent, the reply is the answerer's text verbatim and the session does not change. A file_search intent with a non-empty query runs the search branch. Any other classification gives "couldn't understand" with the session unchanged. |
| Chat.SearchTurn | app.py:77-98 | Stores the query and exactly the files the search returned. With no files the reply is "No files found" and the stage stays. If some name equals the query ignoring case, the first such file is resolved. Otherwise the stage becomes awaiting_selection and the reply lists the numbered candidates. |
| Chat.FirstExactMatch | app.py:85-87 | Returns the first position whose name equals the query ignoring case. None means that no name matches. |
| Chat.Resolve | app.py:88-94 | The stage returns to awaiting_query. When access is granted the reply carries the link and the user's email, and a mail with the file's name and link is sent to the user. When access is refused the reply is the denial and no mail is sent. |
| Chat.Numbered | app.py:97 | Lists min(5, number of files) entries, where entry i is numbered i+1 and names the i-th stored file. |
| Chat.SelectionTurn | app.py:103-118 | Input that int() rejects, including a number with more than 4300 digits, gets the "enter a valid number" reply. A number outside 1..number of stored files gets "invalid selection". Both leave the session unchanged. A number N in range resolves stored file N-1. |
| Chat.Home | app.py:13-19 | Without an email the visitor is redirected to login. Otherwise the stage becomes start and found_files empties, while last_query is kept. |
| Chat.StartIgnoresMessage | app.py:63-65 | In stage start the turn greets and moves to awaiting_query. The result is the same whatever the message and whatever the collaborators would say. |
| Chat.HomeThenGreeting | app.py:14-65 | After the landing page resets the session, the next turn greets and leaves an empty file list in awaiting_query. |
| Chat.DegradedClassifierAnswers | openai_api.py:39-41 | When the classifier falls back to general_response with empty data, the turn gives a general answer and keeps the session. |
| Chat.ListingTurn | app.py:95-98 | A listing reply only comes from a file search in awaiting_query with no exact match. That turn stores exactly the search result, which is non-empty, and moves to awaiting_selection. |
| Chat.SelectByNumber | app.py:104-109 | In awaiting_selection, the decimal rendering of k+1 selects stored file k, with or without surrounding whitespace, as long as it is within int()'s 4300-digit limit. |
| Chat.OverlongNumberRefused | app.py:103-118 | In awaiting_selection, a message with more than 4300 digits gets the "enter a valid number" reply and leaves the session unchanged, because int() raises ValueError for it. |
| Chat.SelectListedEntry | app.py:95-116 | Round trip across two turns: replying with the number printed in front of a listed file selects exactly that file. |
| Chat.ListingShowsAll | app.py:95-98 | If the search never returns more than five files, the numbered list shows every stored candidate. |
| Chat.PipelineListsEverything | app.py:79-98 | With the discovery pipeline as the search, whenever a turn replies with a list, the list shows every stored candidate and every stored candidate carries a site tag. |
| Chat.GrantedText | app.py:92 | The success reply's text contains the file link right after its fixed prefix. |
| Chat.JoinLines | app.py:97 | The joined list text contains the line "N. name" of every entry. |
| Chat.ListingShowsEntries | app.py:97-98 | The listing reply's text contains the line "N. name" of every listed entry. |
| Chat.Render | app.py:61-118 | The general answer is passed through verbatim, and the success reply carries the file link right after its fixed prefix. |
| Chat.ExactMatchScenario | app.py:85-94 | The query "budget" against "Budget" and "budget plan", with access granted, returns the link of "Budget" and mails it without showing a list. |
| Chat.SelectionScenario | app.py:104-118 | With three stored files, "2" resolves the second, "5" is out of range and "abc" is not a number. The last two leave the session unchanged. |
| Graph.TagSiteId | graph_api.py:79-84 | Keeps length and order. Every item's siteId becomes the given site, and id, name, webUrl, score and the rest of parentReference are unchanged. |
| Graph.RetagOverrides | graph_api.py:79-84 | Tagging a tagged list again leaves only the last tag. |
| Graph.PersonalResults | graph_api.py:18-21 | Personal-drive hits are included, tagged "personal", only when that search answers 200. |
| Graph.PagesRequested | graph_api.py:27-48 | The listing loop requests pages until one fails or has no next link, and it requests that page too. Exactly the pages before the last one continued. |
| Graph.ListAndSearchSites | graph_api.py:23-48 | The loop issues exactly the number of page requests the listing calls for. It appends the hits of every successfully read page, and earlier results are kept when a page fails. |
| Graph.AggregateProvenance | graph_api.py:18-44 | Every aggregated hit is tagged "personal" or with the id of a site listed on a page the loop read successfully. |
| Graph.AggregateComplete | graph_api.py:31-44 | Every hit of a successful drive search, on a site whose drive listing succeeded and on a page the loop read, is in the aggregate, whatever failed elsewhere. The same holds for the personal hits. |
| Graph.Aggregate | graph_api.py:16-48 | The personal-drive hits come first, in the order that search returned them. |
| Graph.RankKeepsTags | semantic_search.py:18-24 | Ranking a tagged list keeps every returned file tagged. |
| Graph.FetchRecentFiles | graph_api.py:65-77 | The recent files are tagged "personal" and keep everything else. A failure yields no files. |
| Graph.SearchAllFiles | graph_api.py:14-63 | Issues exactly the listing requests the pages call for. It falls back to the recent files if and only if the aggregate is empty, and ranks whichever list it has with top_k = 5. |
| Graph.Discover | graph_api.py:57-63 | Returns at most 5 files, every one with a site tag. With a non-empty aggregate the result is the top-5 ranking of the aggregate, min(5, size) files, so the fallback never replaces a non-empty result. With an empty aggregate it is the top-5 ranking of the recent files. |
| Graph.FirstTruthy | graph_api.py:101-105 | Models Python's `a or b or c`. The result is the first truthy candidate, or the last candidate when none is truthy. |
| Graph.PermissionEndpoints | graph_api.py:89-94 | Consults the user's drive and the named user's drive first. The site-scoped listing, for that site and item, is added if and only if the site id is non-empty and not "personal": the list has three endpoints then and exactly two otherwise. |
| Graph.ResolveEmail | graph_api.py:100-105 | The grantee email is grantedTo's if that is truthy, else that of the first grantedToIdentitiesV2 entry if that is truthy, else grantedToV2's, whatever it is. |
| Graph.Grants | graph_api.py:106-107 | A granting permission has a read, view or write role, and a named grantee equal to the user ignoring case. Conversely, a permission with such a role grants when it has no grantee email or when its grantee email equals the user's ignoring case. |
| Graph.GrantsIgnoresCase | graph_api.py:107 | Two emails that lower-case to the same text are granted by the same permissions. |
| Graph.UnnamedReadGrantsAll | graph_api.py:100-108 | A permission with no grantee and the role "Read" grants every user. |
| Graph.HasAccess | graph_api.py:89-109 | Access holds if and only if the user's-drive listing, the named user's drive listing or, for a real site, the site listing answers 200 with a granting permission. |
| Graph.AnyGrants | graph_api.py:99-108 | Returns true exactly when some entry of the listing grants access. |
| Graph.CheckFileAccess | graph_api.py:87-109 | Grants if and only if some consulted listing answering 200 holds a permission whose resolved email is missing or equals the user's ignoring case, and whose roles include read, view or write ignoring case. It stops at the first granting listing and otherwise requests them all. |
| Ranking.SortDescending | semantic_search.py:16 | The result is a permutation of the given indices (the same multiset) in non-increasing score order. |
| Ranking.RankIndices | semantic_search.py:15-19 | Selects len(files[:top_k]) distinct in-range positions in non-increasing score order. Every position left out scores no higher than any selected one. |
| Ranking.Rank | semantic_search.py:7-24 | An empty input gives an empty output. The output length is len(files[:top_k]). Each output is a distinct input record annotated with its own score. Scores do not increase along the output, and an input left out scores no higher than any returned record. |
| Text.ParseShowRoundTrip | app.py:97-105 | Reading a number printed in the list back with int(), with or without surrounding whitespace, gives that number when it has at most 4300 digits. |
| Text.ParseInt | app.py:105 | int() of text gives a value only when the stripped text has at most 4300 digits. |
| Text.ParseIntTooManyDigits | app.py:105 | int() refuses text whose stripped form has more than 4300 digits. |
| Text.ParseIntRejects | app.py:105-118 | Stripped text holding anything other than ASCII digits, underscores and a leading sign is refused by int(). |
| Text.Strip | app.py:105 | The stripped text neither starts nor ends with whitespace and is no longer than the input. |
| Text.StripPadded | app.py:105 | strip() removes exactly the surrounding whitespace. |
| Text.Lower | app.py:85 | The model's lower() keeps the length and maps each character on its own: A-Z to a-z, other characters outside the Latin-1 capitals unchanged. |

## Left out

- Flask routing, templates, cookies and the login flow (app.py:21-51, 122-126, auth/msal_auth.py) are transport and third-party authentication. The token and email are an input `Chat.Credential`.
- URL construction, the HTTP client, and the email body built by `send_notification_email` (graph_api.py:111-128) are not modelled. The caller ignores the send result, so only the send itself is modelled, as `Turn.sent`.
- `get_user_email` (graph_api.py:6-11) is unused by the core.
- Exceptions raised by the HTTP client and by `res.json()` are not modelled. Only status codes are. Where they go depends on the branch:
  - In the query branch (app.py:77-98) nothing catches them, so the turn ends in a server error.
  - In the selection branch a ValueError from `check_file_access` is caught at app.py:117. An example is requests' JSONDecodeError for a 200 permission listing whose body is not JSON (graph_api.py:99). The reply is then "Please enter a valid number" and the stage stays awaiting_selection, because app.py:111 is not reached. Other exceptions there escape.
  - `fetch_recent_files` catches every exception and returns the same empty list as a failed status.
- The OpenAI wrappers (openai_api.py) are oracles. Only their documented fallback value is modelled, as `Chat.Degraded`. The model gives both classifier fields as optional strings. A classifier reply that is JSON but not an object makes app.py:69 raise outside any handler. A `data` value that is not a string is not modelled. It behaves by its truthiness: falsy data such as 0 or [] gives "couldn't understand" (app.py:77, 100-101), truthy data whose search and fallback both come back empty gives "No files found" (app.py:82-83), and truthy data with files found makes the turn raise outside any handler unless the value is a string.
- Embedding and cosine similarity (semantic_search.py:5, 12-15) are floating-point numerics from an external library. The score is an abstract `real`, so NaN scores are not modelled.
- The order among equal scores is the model's own insertion order. No contract depends on it, because the source's `argsort` promises none.
- Text.Lower, Chat.FirstExactMatch, Graph.Grants: `str.lower()` is modelled for ASCII and the Latin-1 capitals only, one character to one character. Python's lower() also maps other scripts. It is not always one-to-one per character: 'İ' (U+0130) becomes two code points, and a final 'Σ' becomes 'ς'. None of that is modelled.
- Text.ParseInt, Text.ParseIntRejects, Chat.SelectionTurn: `int()` is modelled on ASCII digits with optional sign and single underscores between digits. Python also accepts other Unicode decimal digits, such as the Arabic-Indic "٣"; those are not modelled, so for them the model refuses what Python accepts.
- Text.ParseInt: the 4300-digit limit is CPython's default from version 3.11 and from the 2022 security releases of 3.7-3.10. An interpreter without the limit, or one where `sys.set_int_max_str_digits` or `PYTHONINTMAXSTRDIGITS` changed it, is not modelled.
- A missing `message` field in the request (`None.strip()` raises) is not modelled. The message is a string.
- The final "Something went wrong" reply (app.py:120) is unreachable with the three stages the code writes, so it has no reply constructor.
- Graph.SearchAllFiles: the site listing is required to stop within the given page responses (`Graph.ListingEnds`). For a listing whose next links never end, the source loops forever.
- Drive listings and drive searches are keyed by site id and drive id. A drive id reached through two sites therefore gets the same search response both times.
- A `parentReference` or identity field that is present with the value null makes the source raise. It is not modelled; such fields are either present or absent.
- The debug printing in `search_all_files` and `chat` is not modelled.
- Parallel fan-out, timeouts and per-session locking are not modelled, because the code is a sequential loop serving one request at a time.
