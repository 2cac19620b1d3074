# Creative Commons primary-site includes, modelled in Dafny

The repository builds the HTML fragments that the creativecommons.org
primary site includes: the navigation header, the navigation footer (with
the site's scripts appended) and the `<head>` styles. Two scripts do the
work. `build.py` fetches four WordPress REST endpoints, rewrites absolute
site URLs to site-relative paths, renders Jinja2 templates and writes
`includes/site-header.html`, `includes/site-footer.html` and
`includes/html-head.html`. `fetch.py` is an earlier, print-only version of
the same loop.

This project models the logic of both scripts:

- `Prefix`: `remove_prefix`, which both scripts define identically.
- `MdTable`: the debug-table printer `list_of_lists_to_md_table`. It is an
  imperative method with nested loops, proved against a specification of
  the table's lines.
- `Records`: the payloads. Menu entries are objects, because the scripts
  mutate them. An asset manifest is a Python dict, held as its ordered
  entries.
- `BuildTransform`: `format_header_footer` and `format_scripts_styles` in
  `build.py`. Each deep-copies the payload, rewrites the copy's URLs and
  collects debug rows. The input is left untouched.
- `FetchTransform`: `format_ccnavigation_header` in `fetch.py`, which
  rewrites the caller's records in place.
- `Config`: the post-parse rule of `setup` (the domain comes from `env`;
  `prod` takes no credentials; `stage` needs both) and the choice of HTTP
  Basic Auth in `request_data`.
- `Errors`: `ScriptError` and the messages of failed requests.
- `Endpoints`: the endpoint list, the derivation of a handler name from an
  endpoint, and the name lookup, written as an explicit table.
- `Pipeline`: `build.py`'s `main`. It primes the cache, walks the endpoints
  in order, dispatches each one to its handler, and writes or appends the
  rendered fragment. The run stops at the first failed request.
- `Strings`: the Python string built-ins these use (`join`, `split`,
  `ljust`, `*`, `replace`, `str` of an int), with their round trips.

## Model

| member | source | states |
|---|---|---|
| Prefix.RemovePrefix | build.py:46-49 | when the text starts with the prefix, the prefix followed by the result rebuilds the text; otherwise the text comes back unchanged |
| Prefix.RemovePrefixOfPrepended | fetch.py:41-44 | stripping a prefix that was just prepended gives back exactly what followed it |
| Prefix.StripChangesIff | build.py:106-109 | for a non-empty prefix the strip changes a URL if and only if the URL starts with the prefix, so `url_full != url_path` singles out exactly the site URLs |
| Prefix.ReapplyIff | build.py:46-49 | a second strip leaves the result alone if and only if what remains after the first strip does not itself start with the prefix |
| Prefix.NotIdempotent | build.py:46-49 | a URL that carries the site prefix twice loses it once per application, so the strip is not idempotent |
| Strings.LJust | build.py:72 | `ljust` keeps the string as its prefix, pads only with spaces, and the length is the larger of the width and the string's own length |
| Strings.SplitJoin | fetch.py:181 | joining the parts of `split` with the separator rebuilds the string, and no part contains the separator |
| Strings.JoinSplit | build.py:84 | splitting a newline-join of newline-free lines gives back the lines |
| Strings.SplitCount | build.py:270 | `split` on a one-character separator gives one part more than the string has separators |
| Strings.ReplaceCharFacts | build.py:270 | `replace` of one character keeps the length, leaves none of the replaced character behind, and leaves a string without it unchanged |
| Strings.DecimalRoundTrip | build.py:42 | the decimal text `str` gives for a non-negative code reads back as that code |
| MdTable.ColumnCountIsMin | build.py:63 | `zip(*rows)` yields as many columns as the shortest row has: no row is shorter, and some row has exactly that length |
| MdTable.ColumnWidthIsMax | build.py:63 | a column's width is at least the length of every cell in it, header included, and equals the length of one of them |
| MdTable.Widths | build.py:63 | there is one width for each column that `zip` yields |
| MdTable.TableLines | build.py:62-84 | the table has one line more than there are rows: the header line first and the separator line second |
| MdTable.ListOfListsToMdTable | build.py:52-84 | the result is an `IndexError` exactly when the rows are not renderable (no rows, or a row with a non-last cell beyond the shortest row's columns); otherwise the text is the table's lines joined with newlines |
| MdTable.FormatRow | build.py:65-73 | the inner loop fails exactly when a non-last cell has no column width; otherwise it yields the row's printed cells: the last one as it is, every other one left-justified to its column's width |
| MdTable.FormatSeparator | build.py:75-82 | the separator's cells are dashes as wide as each non-last column, and as many dashes as the last header cell has characters |
| MdTable.TableLineOf | build.py:65-82 | the table has one line more than there are rows; the header is line 0 and row `j` (for `j >= 1`) is line `j + 1`, so the rows keep their order |
| MdTable.LineAt | build.py:73 | in `"| " + " | ".join(cells) + " |"` whose earlier cells are padded, each cell sits at its column's fixed offset, and the last one is followed only by `" |"` |
| MdTable.RowLayout | build.py:66-73 | in a row line, every non-last cell is the cell left-justified to its column width at the column's offset, and the last cell is unpadded and followed by `" |"` |
| MdTable.RowColumnAt | build.py:63-73 | the layout that `RowLayout` gives holds for every row of every renderable table, at the line `TableLineOf` names |
| MdTable.SeparatorLayout | build.py:75-82 | in the separator line, non-last columns hold exactly their width in dashes at their offset, and the last column holds as many dashes as the last header cell has characters |
| MdTable.SeparatorColumnAt | build.py:75-82 | the separator of every renderable table is line 1, laid out as `SeparatorLayout` says |
| MdTable.TableTextLines | build.py:84 | when no cell contains a newline, the table text splits back into exactly `len(rows) + 1` lines: the header, the separator, then the rows in order |
| BuildTransform.DisplayUrl | build.py:108-110 | the debug URL is the URL itself when it does not start with the site prefix; otherwise it is the grey site prefix, a colour reset and the path |
| BuildTransform.DisplayUnchangedIff | build.py:108-110 | a debug row shows the URL unchanged if and only if the URL is not a site URL |
| BuildTransform.MenuInfoRow | build.py:111 | a menu entry's debug row has one cell per column title |
| BuildTransform.AssetInfoRow | build.py:129 | an asset's debug row has one cell per column title |
| BuildTransform.InfoRowsShow | build.py:108-111 | a menu row's `ID` cell reads back as the entry's ID and its title cell is the title; an asset row's first cell is the id; in both, the URL cell is the URL unchanged exactly when it is not a site URL |
| BuildTransform.DeepCopy | build.py:99 | the copy is a list of new, distinct records that hold the same field values, in order |
| BuildTransform.FormatHeaderFooter | build.py:98-111 | the copy is new records in the input's order, each with the same `ID` and title and the stripped URL; the input records are unchanged; the debug table is the column titles followed by one row per entry, in order |
| BuildTransform.FormatScriptsStyles | build.py:119-129 | the copy has the same ids in the same order, each URL stripped; the ids stay unique; the debug table is the column titles followed by one row per asset, in dict order |
| BuildTransform.UniformRowsRender | build.py:111 | rows that all have the same number of cells always render without `IndexError` |
| BuildTransform.MenuInfoRenders | build.py:100-114 | the debug table that `format_header_footer` builds (column titles, then one row per entry) always renders, so its debug print cannot fail |
| BuildTransform.AssetInfoRenders | build.py:121-132 | the debug table that `format_scripts_styles` builds (column titles, then one row per asset) always renders, so its debug print cannot fail |
| FetchTransform.FormatCcnavigationHeader | fetch.py:142-147 | every record of the caller's list now holds its old URL stripped of the site prefix and keeps its `ID` and title; the list and all other objects are unchanged |
| Config.Domain | build.py:189 | the domain of an environment is a non-empty host name without a slash, so `https://` followed by it is a bare origin that an endpoint path can follow |
| Config.Setup | build.py:189-199 | the arguments are accepted exactly for `prod` with neither credential and `stage` with both; the domain is always the one for `env`; each rejection carries its environment's message |
| Config.RequestAuth | fetch.py:112-114 | Basic Auth is attached exactly when both the username and the password are truthy, and it carries those two values |
| Config.AuthFollowsEnv | fetch.py:97-114 | once `setup` has accepted the arguments, `prod` requests are anonymous and `stage` requests carry credentials |
| Errors.NewScriptError | build.py:39-43 | the exit code is never 0: a truthy code is kept, and `None` or 0 become 1; the message is prefixed with the code in parentheses |
| Errors.FailureMessageAsWritten | build.py:214-225 | the messages as the code has them: HTTP and timeout failures read as intended, and a connection failure reads as the intended message for a URL that is literally `{end_url}` |
| Errors.AsWrittenAgreesIff | build.py:214-225 | the written and the intended message agree exactly when the failure is not a connection error or the URL is literally `{end_url}` |
| Errors.ConnectionErrorOmitsUrl | build.py:216-221 | as written, the connection-error message is the same whatever URL failed |
| Errors.FailureMessage | build.py:214-225 | the corrected failure messages; an HTTP error reports the client's own text |
| Errors.FailureMessageNamesUrl | fetch.py:124-133 | with the corrected message, a connection or timeout failure ends with the URL, so different URLs give different messages |
| Endpoints.HandlerName | build.py:270 | a derived handler name starts with `format_` and holds no `-` |
| Endpoints.MissingSegmentIff | build.py:270 | deriving the name fails with `IndexError` exactly when the endpoint has fewer than two slashes |
| Endpoints.Dispatch | build.py:272 | the lookup finds a handler exactly when the derived name is that handler's name, and then the handler is the one with that name |
| Endpoints.HandlerNameOfPath | build.py:270 | the handler name of `/a/b/rest` is `format_` followed by `b` with every `-` turned into `_`, whatever `rest` is |
| Endpoints.NoSlashNoHandler | fetch.py:181 | an endpoint without a slash has no third segment, so no handler name and no handler |
| Endpoints.HeaderName | fetch.py:26 | the header endpoint derives the name `format_ccnavigation_header` |
| Endpoints.FooterName | fetch.py:27 | the footer endpoint derives the name `format_ccnavigation_footer` |
| Endpoints.ScriptsName | fetch.py:28 | the scripts endpoint derives the name `format_cc_wpscripts` |
| Endpoints.StylesName | fetch.py:29 | the styles endpoint derives the name `format_cc_wpstyles` |
| Endpoints.HeaderEndpoint | build.py:234-237 | the header endpoint reaches `format_ccnavigation_header` |
| Endpoints.FooterEndpoint | build.py:240-243 | the footer endpoint reaches `format_ccnavigation_footer` |
| Endpoints.ScriptsEndpoint | build.py:246-254 | the scripts endpoint reaches `format_cc_wpscripts` |
| Endpoints.StylesEndpoint | build.py:257-260 | the styles endpoint reaches `format_cc_wpstyles` |
| Endpoints.EndpointDispatch | build.py:30-35 | the lookup is total on the endpoint list: endpoint `i` reaches handler `i` |
| Endpoints.DispatchIsInjective | build.py:268-272 | no two endpoints of the list reach the same handler through the name lookup |
| Endpoints.DispatchIsOnto | build.py:268-272 | every handler is reached through the name lookup, by the endpoint at its position in the fetch order |
| Pipeline.EffectTouchesOnlyTarget | build.py:234-260 | each handler writes its own file and no other: header, footer and styles end up holding the fragment and a newline, the scripts fragment and a newline go after the footer's contents, and every other file keeps its contents |
| Pipeline.RequestError | build.py:214-225 | a failed request ends the run with exit code 1 |
| Pipeline.RequestErrorAsRaised | build.py:214-225 | for an HTTP error or a timeout, the run ends with exactly the `ScriptError` that `request_data` raises |
| Pipeline.RequestErrorNamesUrl | build.py:222-225 | for a connection error or a timeout, the reported message ends with the URL that failed |
| Pipeline.IncludesDir.Write | build.py:92-93 | opening for writing replaces the file's contents, and no other file changes |
| Pipeline.IncludesDir.Append | build.py:253-254 | opening for appending adds the text after the file's current contents (none if it is missing), and no other file changes |
| Pipeline.Handle | build.py:234-260 | each handler makes exactly its file operation: the menus and the styles overwrite their file, and the scripts append to the footer |
| Pipeline.HandleEndpoint | build.py:269-272 | one turn of the loop requests `https://domain + endpoint` with the run's auth; on success the directory changes as the dispatched handler says, and on failure it does not change |
| Pipeline.BuildIncludes | build.py:263-272 | the requests made are a prefix of the plan (prime first, then the endpoints in order), and all but possibly the last succeeded; the run succeeds exactly when all four endpoints were handled; a failure reports the last request's failure with code 1; the directory holds the handled endpoints' effects, in order |
| Pipeline.CompleteRun | build.py:252-254 | after a complete run the header and styles files hold their fragments, and the footer holds its own fragment followed by the scripts, whatever was there before; no other file changes |
| Pipeline.FooterBeforeScripts | build.py:246-254 | footer then scripts leaves both fragments in the footer, while the opposite order would lose the scripts |
| Pipeline.FooterFetchedBeforeScripts | build.py:30-35 | the footer endpoint comes before the scripts endpoint in the fetch order |

## Left out

- HTTP: the request itself, status checking, timeouts and JSON decoding are
  left out. A request is a value, and the network is a function parameter
  from requests to bodies or failures. A body that does not decode as JSON
  would raise an unhandled exception; that is not modelled.
- Jinja2: template loading and rendering are left out. They become the
  `render` parameter of `Pipeline.BuildIncludes`, which maps a handler and a
  response body to the fragment, already stripped. The same parameter stands
  for the transforms that feed the template, which are modelled on their
  own in `BuildTransform`.
- File I/O: the `includes/` directory is a map from file names to contents.
  Writing and appending are methods on it. Encodings and I/O errors are not
  modelled.
- Argument parsing and environment variables: argparse, the
  `FETCH_USERNAME`/`FETCH_PASSWORD` defaults, and the exit code and usage
  text of `ap.error` are left out. Only the post-parse rule is modelled.
- `colorama.init()` and every `print`, including the debug output and the
  handlers' `print` lines, are left out. `C_GRAY` and `C_RESET` are the
  ANSI strings that colorama's constants stand for.
- The top-level handler that turns exceptions into exit codes is left out.
  A failed request ends `Pipeline.BuildIncludes` with a `ScriptError` of
  code 1. For an HTTP error or a timeout it is the error the script raises
  (`Pipeline.RequestErrorAsRaised`).
- Pipeline.BuildIncludes: on a connection error it reports the corrected
  message, which names the failed URL, not the literal `{end_url}` text that
  build.py:217-221 produces. See "## Findings".
- Pipeline.RequestError: it is built from the corrected
  `Errors.FailureMessage`, so it differs from the raised error on a
  connection error, for every URL other than the literal `{end_url}`
  (`Errors.AsWrittenAgreesIff`).
- `fetch.py`'s `main` and its footer, scripts and styles handlers are left
  out: they only print. Its name derivation, `setup`, auth selection and
  `ScriptError` are the same code as in `build.py`, so one model covers
  both.
- The `globals()` lookup is the explicit table `Endpoints.HANDLERS`. An unknown
  name would raise `KeyError`; `Endpoints.Dispatch` returns `None` instead.
- Pipeline.Effect: a plain definition without its own contract, to keep the
  proof of `Pipeline.BuildIncludes` small. `Pipeline.EffectTouchesOnlyTarget`
  states what it does.
- FetchTransform.FormatCcnavigationHeader: it requires the list's records to
  be distinct objects. A list decoded from JSON never shares records, so
  aliasing is not modelled.
- BuildTransform.FormatScriptsStyles: an asset dict is modelled as its
  entries in insertion order with unique ids. Assigning `data_path[id_]`
  therefore updates entry `n`, and the dict is never resized.
- `copy.deepcopy` and `copy.copy` of strings are the identity. Strings are
  values here.
- `remove_prefix` is not idempotent, so no contract claims that it is.
  `Prefix.ReapplyIff` states exactly when a second strip changes nothing.
- Only `includes/` is written, as in `build.py`. There is no
  full-URL/path-URL pair of output directories.

## Findings

| source | as written | input that shows it | evidently intended | confidence | as-written member | corrected member |
|---|---|---|---|---|---|---|
| build.py:216-221 (also fetch.py:124-129) | the second half of the connection-error message is a plain string, not an f-string, so the message ends with the literal text `{end_url}` | any request that fails with a connection error, for example to `https://stage.creativecommons.org/wp-json/cc-wpscripts/get`, gives the same message as one to any other URL | the message names the URL that failed, as the timeout message does | not executed | Errors.FailureMessageAsWritten (shown by Errors.ConnectionErrorOmitsUrl and Errors.AsWrittenAgreesIff) | Errors.FailureMessage (proved by Errors.FailureMessageNamesUrl; used by Pipeline.RequestError, see Pipeline.RequestErrorNamesUrl) |
