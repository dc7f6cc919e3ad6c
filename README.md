# GitHub issue browser: a verified model of its issue tree and preview state

The extension shows a GitHub repository's issues in an editor sidebar. Its
issue provider keeps two per-state caches (`open`, `closed`), each either
"loading" (`null`) or a list of issue nodes, and derives a fixed tree from
them: a root with two state nodes, under each state either a placeholder
label or its issues. Loading a state clears its cache, then fills it with the
reshaped API answer; for open issues the largest issue number is compared
with the number kept in `res/number.json`, and a larger one is announced and
stored. Creating an issue validates a title and a body, maps the picked type
to a GitHub label, and stores the created issue's number. A separate HTML
preview provider keeps a render mode (`url`, `markdown`, `html`) with three
payloads and a title.

Files:

- `wrappers.dfy` — `Option` (`null`/`undefined`) and `Result` (error-first callbacks).
- `js_values.dfy` — JavaScript's integer-to-text conversion, `parseInt` with no
  radix, and `indexOf`; the round trip `parseInt(String(n)) == n`.
- `issue_tree.dfy` — node and cache datatypes, `hasGithubConfig` (both user
  and repo non-empty), `getChildren`, `getTreeItem`, `getLabelImage`,
  `labelName`, the two prompt validators, the request `createIssue` builds,
  `getIssueUrl`.
- `issue_loading.dfy` — reshaping API records, `Math.max`, `filter(...)[0]`
  and the new-issue notification decision.
- `issue_provider.dfy` — the provider object: caches, token cache and token
  file, number file, the two steps of `loadIssues`, `createIssue`.
- `html_provider.dfy` — the preview provider object.

The `res/number.json` file is modelled as the decimal text of the number
written to it (`writeFileSync` given a number, coerced with `'' + n` as
Node.js releases before v14 do), and is
read back with a model of ECMAScript's `parseInt` (section 19.2.5 of
ECMA-262: leading white space, one sign, a `0x` prefix switching to radix 16,
the longest digit run, NaN when there is none).

The listing request does not depend on the state being loaded: both
`loadIssues('open')` and `loadIssues('closed')` send the same
`ghissues.list({}, user, repo, ...)` call, and the state only picks the cache
the answer goes into. The model takes each load's answer as its own
parameter, so it says nothing about which issues the API returns. The empty API answer on the
open path is modelled as the code behaves: `Math.max()` is `-Infinity`, so a
stored number never fires; with no number file the code reads `body` of
`undefined` and throws, which the model records as `ToastCrash` (nothing
shown, nothing stored).

## Model

| member | source | states |
|---|---|---|
| `JsValues.IntToString` | src/IssueProvider.ts:60 | the text of an integer is non-empty, all decimal digits, with a leading `-` exactly for negatives |
| `JsValues.ParseInt` | src/IssueProvider.ts:163 | text with no decimal digit is NaN; a negative result needs a `-` in the text; text that starts with two decimal digits, or is one digit, gives a non-negative number |
| `JsValues.IntToStringCanonical` | src/IssueProvider.ts:223 | the text of an integer is canonical: `0` is "0", no positive number starts with `0`, no negative one has `0` after its `-` |
| `JsValues.ParseIntOfIntToString` | src/IssueProvider.ts:163 | `parseInt` of the text written for any integer `n` gives back `n` (never NaN) |
| `JsValues.IntToStringInjective` | src/IssueProvider.ts:176 | two integers with the same written text are equal |
| `JsValues.IndexOf` | src/IssueProvider.ts:104-106 | -1 exactly when the label is absent, otherwise the first index holding it |
| `IssueTree.HasGithubConfig` | src/IssueProvider.ts:47-49 | holds exactly when both the user and the repository are non-empty strings |
| `IssueTree.GetChildren` | src/IssueProvider.ts:80-90 | no config gives no children anywhere; the root gives open then closed; issues and labels have none; a state node gives "加载中..." for a loading cache, "暂无问题" for an empty one, else exactly that state's cached list |
| `IssueTree.GetTreeItem` | src/IssueProvider.ts:57-77 | no config gives the "not a GitHub project" label only; an issue shows its title, id text, icon by label, no collapsing and the view command on itself; open is expanded, closed collapsed; a label shows its text |
| `IssueTree.ExpandableIffHasChildren` | src/IssueProvider.ts:74 | with a config, a node is shown collapsible (expanded or collapsed) exactly when it has children |
| `IssueTree.LabelImage` | src/IssueProvider.ts:103-108 | `bug.svg` iff `bug` is present; `question.svg` iff `question` but no `bug`; `require.svg` iff `help wanted` and neither; `other.svg` otherwise |
| `IssueTree.LabelName` | src/IssueProvider.ts:179-185 | `Bug`, `需求`, `问题` map to `bug`, `help wanted`, `question`; every other choice, `其它` included, gives none |
| `IssueTree.TitleValidation` | src/IssueProvider.ts:195 | the title prompt rejects, with "字数太多", exactly the inputs longer than 20 characters |
| `IssueTree.BodyValidation` | src/IssueProvider.ts:204 | the body prompt rejects, with "至少输入5个字", exactly the non-empty inputs shorter than 5 characters |
| `IssueTree.PrepareIssue` | src/IssueProvider.ts:191-211 | a request is sent iff configured and token, title, type and body are all non-empty; it carries that title and body, and a `labels` list only when the type maps to a label |
| `IssueTree.SubmittedIssueIsValid` | src/IssueProvider.ts:192-206 | answers that passed validation and were sent have a title of 1 to 20 characters and a body of at least 5 |
| `IssueTree.GetIssueUrl` | src/IssueProvider.ts:222-224 | the URL starts with `https://github.com/` and ends with the issue number's text |
| `IssueTree.IssueUrlNamesRepository` | src/IssueProvider.ts:223 | between the `https://github.com/` prefix and the number, the URL is exactly `user/repo/issues/` of the configured repository |
| `IssueTree.IssueUrlInjective` | src/IssueProvider.ts:222-224 | different issue numbers of one repository give different URLs |
| `IssueLoading.LabelNames` | src/IssueProvider.ts:152 | one name per label, in order, each the label's `name` |
| `IssueLoading.Reshape` | src/IssueProvider.ts:148-155 | same length and order as the API answer; each node keeps id, title, body and number, takes the label names and is an issue node |
| `IssueLoading.Numbers` | src/IssueProvider.ts:159 | the issue numbers of the answer, in order |
| `IssueLoading.Max` | src/IssueProvider.ts:159 | the result is one of the numbers and no number exceeds it |
| `IssueLoading.FirstWithNumber` | src/IssueProvider.ts:167 | the first record whose number is the one sought |
| `IssueLoading.Fires` | src/IssueProvider.ts:161-165 | a missing file always asks for a notification, an unreadable one never does, and a file's text does exactly when it parses (not NaN) to a number below the maximum |
| `IssueLoading.NewIssueToast` | src/IssueProvider.ts:157-170 | for a non-empty answer: announces iff the file is absent or parses below the maximum (unreadable, NaN, equal or larger: no), with the maximum as the number to store and the body of the first issue carrying it; an empty answer never announces and fails only without a file |
| `IssueLoading.StoredNumberFires` | src/IssueProvider.ts:163 | a number file written for `stored` asks for a notification about a maximum exactly when `stored` is below it |
| `IssueLoading.NotifiesOnlyOnIncrease` | src/IssueProvider.ts:163-169 | with a stored number, a notification comes exactly when the answer's maximum is larger |
| `IssueLoading.NotifiesOnce` | src/IssueProvider.ts:166-169 | after an announcement stores its number, the same answer announces nothing |
| `IssueLoading.ShownAfterLoad` | src/IssueProvider.ts:84-87 | after a successful load the state node shows one issue per API record in order, or the single "暂无问题" label |
| `IssueProviderState.StoredToken` | src/IssueProvider.ts:111-122 | a cached token is returned regardless of the file; otherwise the file's token, else empty |
| `IssueProviderState.IssueProvider.constructor` | src/IssueProvider.ts:38-44 | the info found (or two empty strings), both caches loading, and two refreshes only when configured |
| `IssueProviderState.IssueProvider.Refresh` | src/IssueProvider.ts:52-54 | one more change event |
| `IssueProviderState.IssueProvider.BeginLoad` | src/IssueProvider.ts:143-145 | no config: nothing changes; otherwise only the state's cache becomes loading, the other is untouched, one refresh |
| `IssueProviderState.IssueProvider.SetNumber` | src/IssueProvider.ts:175-177 | the number file holds the number's text, which parses back to it |
| `IssueProviderState.IssueProvider.CompleteLoad` | src/IssueProvider.ts:146-171 | an error leaves everything (the cache stays loading); an answer sets only that cache to the reshaped list and refreshes; for open, an announcement adds its message and stores the maximum, otherwise nothing is shown or written; closed never notifies |
| `IssueProviderState.IssueProvider.LoadIssues` | src/IssueProvider.ts:142-173 | both steps composed: no config changes nothing; an error leaves the cache loading; an answer leaves it filled after two refreshes, and for open shows and stores what the notification step decides, while closed touches neither messages nor the number file |
| `IssueProviderState.IssueProvider.GithubToken` | src/IssueProvider.ts:111-122 | returns the stored token; caches the file's token only when nothing was cached |
| `IssueProviderState.IssueProvider.SetGithubToken` | src/IssueProvider.ts:125-129 | file and cache both hold the new token |
| `IssueProviderState.IssueProvider.AutoCreateToken` | src/IssueProvider.ts:132-139 | a known token is kept unless forced; otherwise the typed answer (or empty) is returned and stored when non-empty; the token cache ends as the returned token, or as the stored token when that answer is empty |
| `IssueProviderState.IssueProvider.CreateIssue` | src/IssueProvider.ts:188-220 | sends what `PrepareIssue` decides for the token obtained; the token cache and token file end as the token step leaves them; after a successful creation the new number is stored, otherwise the number file is unchanged |
| `HtmlPreview.HtmlProvider.constructor` | src/HTMLProvider.ts:11-20 | mode `url`, markdown, url, html and title all empty |
| `HtmlPreview.HtmlProvider.GetContent` | src/HTMLProvider.ts:60-63 | rendered markdown in markdown mode; the stored html in every other mode, `url` included |
| `HtmlPreview.HtmlProvider.ProvideTextDocumentContent` | src/HTMLProvider.ts:42-58 | the fixed page head, then exactly the content, then the fixed tail |
| `HtmlPreview.HtmlProvider.SetMarkdown` | src/HTMLProvider.ts:65-69 | mode markdown and the new markdown; url, html and title unchanged; one change event |
| `HtmlPreview.HtmlProvider.SetUrl` | src/HTMLProvider.ts:71-75 | mode url and the new url; markdown, html and title unchanged; the content is still the old html |
| `HtmlPreview.HtmlProvider.SetHtml` | src/HTMLProvider.ts:77-81 | mode html and the new html, which becomes the content; markdown, url and title unchanged |
| `HtmlPreview.HtmlProvider.SetTitle` | src/HTMLProvider.ts:83-85 | only the title changes; no change event |
| `HtmlPreview.HtmlProvider.Render` | src/HTMLProvider.ts:87-93 | url mode writes the url into `main.js` and targets `res/web/index.html`; any other mode targets `html-preview://` and writes nothing; column defaults to the first; the title is passed on |

## Left out

- Host UI: tree registration, the event emitters (modelled as the counters `refreshes` and `changes`), input boxes and the quick pick (their answers are parameters), error messages of failed requests (not recorded), the output channel, `executeCommand` (`Render` returns its arguments) and `console.log`.
- The `ghissues` network calls: their answers are `Result` parameters; callback interleaving is left to the caller of `BeginLoad` and `CompleteLoad`, and the delayed reload after creating an issue (`setTimeout`) is not modelled.
- `getGithubInfo` and its `.git/config` regular expression: the constructor takes its outcome as a parameter.
- `asAbsolutePath`: every path is kept relative to the extension directory.
- `markdown2html` (markdown-it and highlight.js): a function value given to the preview provider's constructor.
- Reading and writing files: `token.json` and `number.json` are state values holding their meaning; JSON encoding is not modelled, nor a token file whose JSON lacks a `token` field, nor a failing write.
- Floating point: issue ids and numbers are unbounded integers, so `parseInt` of more than 2^53 and `Math.max` over NaN are not modelled.
- Node.js v14 and later: `fs.writeFileSync(path, number)` throws there, so `setNumber` would store nothing after the message is shown and every load would announce again; the model assumes the earlier coercion to text.
- API issue records: an issue's `body` is taken to be a string; the API's `null` body for an issue without a description (shown as "新问题：null") is not modelled.
- The `try`/`catch` around `createIssue` for exceptions raised by the prompts.
- `IssueTree.TitleValidation`: counts Unicode characters, whereas JavaScript's `length` counts UTF-16 code units, so a character outside the Basic Multilingual Plane counts once here and twice in the source.
- `IssueTree.BodyValidation`: the same character-counting difference as the title validator.
- `IssueTree.LabelName`: the source looks the choice up in an object literal, so names inherited from `Object.prototype` (such as `constructor`) would give a truthy value; the quick pick only offers `Bug`, `问题`, `需求` and `其它`, and the model gives none for every other string.
- `src/extension.ts`: command wiring only; it also keeps the preview provider unused.
