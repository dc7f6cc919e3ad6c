/** The issue provider object: its caches, the persisted number and token
    files, the cached token, and the steps of loading issues, announcing a new
    one and filing one. Network answers and prompt answers are parameters;
    `refreshes` counts the change events fired to the tree view and `toasts`
    lists the information messages shown. */
module IssueProviderState {
  import opened Wrappers
  import opened JsValues
  import opened IssueTree
  import opened IssueLoading

  /** `res/token.json`: absent, unreadable or not JSON, or its `token`. */
  datatype TokenFile = NoTokenFile | UnreadableTokenFile | TokenJson(token: string)

  /** What the `githubToken` getter returns: the cached token when there is
      one, else the token read from the file, else the empty string. */
  function StoredToken(cached: string, file: TokenFile): (t: string)
    ensures cached != "" ==> t == cached
    ensures cached == "" && file.TokenJson? ==> t == file.token
    ensures cached == "" && !file.TokenJson? ==> t == ""
  {
    if cached != "" then cached
    else match file
      case TokenJson(token) => token
      case _ => ""
  }

  class IssueProvider {
    var githubInfo: GithubInfo
    var issues: Cache
    var ghtoken: string
    var tokenFile: TokenFile
    var numberFile: NumberFile
    var refreshes: nat
    var toasts: seq<string>

    /** The constructor takes what `getGithubInfo` found (`None` for `null`)
        and starts loading both states. */
    constructor (found: Option<GithubInfo>, tokens: TokenFile, numbers: NumberFile)
      ensures githubInfo == found.GetOr(GithubInfo("", ""))
      ensures issues == Cache(None, None)
      ensures ghtoken == "" && tokenFile == tokens && numberFile == numbers && toasts == []
      ensures refreshes == if HasGithubConfig(githubInfo) then 2 else 0
    {
      githubInfo := found.GetOr(GithubInfo("", ""));
      issues := Cache(None, None);
      ghtoken := "";
      tokenFile := tokens;
      numberFile := numbers;
      refreshes := 0;
      toasts := [];
      new;
      BeginLoad(Open);
      BeginLoad(Closed);
    }

    /** `refresh`: fires the tree's change event. */
    method Refresh()
      modifies this`refreshes
      ensures refreshes == old(refreshes) + 1
    {
      refreshes := refreshes + 1;
    }

    /** The synchronous part of `loadIssues(state)`: without a GitHub
        configuration nothing happens; otherwise only that state's cache goes
        back to "loading" and the tree is refreshed. */
    method BeginLoad(state: IssueState)
      modifies this`issues, this`refreshes
      ensures !HasGithubConfig(githubInfo) ==> issues == old(issues) && refreshes == old(refreshes)
      ensures HasGithubConfig(githubInfo) ==>
        issues == old(issues).With(state, None) && refreshes == old(refreshes) + 1
      ensures issues.Get(if state == Open then Closed else Open)
              == old(issues).Get(if state == Open then Closed else Open)
    {
      if !HasGithubConfig(githubInfo) {
        return;
      }
      issues := issues.With(state, None);
      Refresh();
    }

    /** `setNumber(n)`: the file receives the decimal text of `n`. */
    method SetNumber(n: int)
      modifies this`numberFile
      ensures numberFile == NumberText(IntToString(n))
      ensures ParseInt(numberFile.text) == Some(n)
    {
      numberFile := NumberText(IntToString(n));
      ParseIntOfIntToString(n);
    }

    /** The completion callback of `loadIssues(state)`. An error leaves the
        cache as it was ("loading"); an answer replaces that state's cache by
        the reshaped records, refreshes, and for `open` runs the notification
        step on the number file. */
    method CompleteLoad(state: IssueState, response: Result<seq<RawIssue>, string>)
      modifies this`issues, this`refreshes, this`numberFile, this`toasts
      ensures response.Failure? ==>
        issues == old(issues) && refreshes == old(refreshes)
        && numberFile == old(numberFile) && toasts == old(toasts)
      ensures response.Success? ==>
        issues == old(issues).With(state, Some(Reshape(response.value)))
        && refreshes == old(refreshes) + 1
      ensures response.Success? && state == Open ==>
        match NewIssueToast(response.value, old(numberFile))
        case ShowNewIssue(message, n) =>
          toasts == old(toasts) + [message] && numberFile == NumberText(IntToString(n))
        case _ => toasts == old(toasts) && numberFile == old(numberFile)
      ensures state == Closed ==> toasts == old(toasts) && numberFile == old(numberFile)
    {
      if response.Failure? {
        return;
      }
      var result := response.value;
      issues := issues.With(state, Some(Reshape(result)));
      Refresh();
      if state == Open {
        var toast := NewIssueToast(result, numberFile);
        if toast.ShowNewIssue? {
          toasts := toasts + [toast.message];
          SetNumber(toast.newNumber);
        }
      }
    }

    /** `loadIssues(state)` run to completion with the given API answer. */
    method LoadIssues(state: IssueState, response: Result<seq<RawIssue>, string>)
      modifies this`issues, this`refreshes, this`numberFile, this`toasts
      ensures !HasGithubConfig(githubInfo) ==>
        issues == old(issues) && refreshes == old(refreshes)
        && numberFile == old(numberFile) && toasts == old(toasts)
      ensures HasGithubConfig(githubInfo) && response.Failure? ==>
        issues == old(issues).With(state, None) && refreshes == old(refreshes) + 1
        && numberFile == old(numberFile) && toasts == old(toasts)
      ensures HasGithubConfig(githubInfo) && response.Success? ==>
        issues == old(issues).With(state, Some(Reshape(response.value)))
        && refreshes == old(refreshes) + 2
      ensures HasGithubConfig(githubInfo) && response.Success? && state == Open ==>
        match NewIssueToast(response.value, old(numberFile))
        case ShowNewIssue(message, n) =>
          toasts == old(toasts) + [message] && numberFile == NumberText(IntToString(n))
        case _ => toasts == old(toasts) && numberFile == old(numberFile)
      ensures state == Closed ==> toasts == old(toasts) && numberFile == old(numberFile)
    {
      BeginLoad(state);
      if HasGithubConfig(githubInfo) {
        CompleteLoad(state, response);
      }
    }

    /** The `githubToken` getter: once a token is cached it is returned
        without looking at the file again. */
    method GithubToken() returns (t: string)
      modifies this`ghtoken
      ensures t == StoredToken(old(ghtoken), tokenFile)
      ensures ghtoken == (if old(ghtoken) == "" && tokenFile.TokenJson? then tokenFile.token else old(ghtoken))
    {
      if ghtoken != "" {
        return ghtoken;
      }
      match tokenFile
      case TokenJson(token) =>
        ghtoken := token;
        t := token;
      case _ =>
        t := "";
    }

    /** The `githubToken` setter: writes the file and caches the token. */
    method SetGithubToken(token: string)
      modifies this`tokenFile, this`ghtoken
      ensures tokenFile == TokenJson(token) && ghtoken == token
    {
      tokenFile := TokenJson(token);
      ghtoken := token;
    }

    /** `autoCreateToken(force)`, where `typed` is the answer of the token
        prompt (`None` when dismissed): a known token is kept unless `force`;
        otherwise the typed token is stored when non-empty and returned. */
    method AutoCreateToken(force: bool, typed: Option<string>) returns (t: string)
      modifies this`tokenFile, this`ghtoken
      ensures StoredToken(old(ghtoken), old(tokenFile)) != "" && !force ==>
        t == StoredToken(old(ghtoken), old(tokenFile)) && tokenFile == old(tokenFile)
      ensures StoredToken(old(ghtoken), old(tokenFile)) == "" || force ==>
        t == typed.GetOr("")
        && (t != "" ==> tokenFile == TokenJson(t) && ghtoken == t)
        && (t == "" ==> tokenFile == old(tokenFile))
      ensures ghtoken == (if t != "" then t else StoredToken(old(ghtoken), old(tokenFile)))
    {
      var known := GithubToken();
      if known != "" && !force {
        t := GithubToken();
        return;
      }
      if typed.GetOr("") != "" {
        SetGithubToken(typed.value);
      }
      t := typed.GetOr("");
    }

    /** `createIssue` with the prompt answers given in order (token prompt,
        title, type, body) and the API answer `created` (the new issue's
        number or an error). It returns what was sent, if anything; after a
        successful creation the new number is stored, so the reload that
        follows does not announce the user's own issue. */
    method CreateIssue(typedToken: Option<string>, title: Option<string>, pick: Option<string>,
                       body: Option<string>, created: Result<int, string>)
      returns (sent: Option<NewIssue>)
      modifies this`tokenFile, this`ghtoken, this`numberFile
      ensures var known := StoredToken(old(ghtoken), old(tokenFile));
              var token := if known != "" then known else typedToken.GetOr("");
              && sent == PrepareIssue(githubInfo, token, title, pick, body)
              && ghtoken == (if token != "" then token else known)
              && tokenFile == (if known == "" && token != "" then TokenJson(token) else old(tokenFile))
      ensures sent.Some? && created.Success? ==> numberFile == NumberText(IntToString(created.value))
      ensures sent.None? || created.Failure? ==> numberFile == old(numberFile)
    {
      var token := AutoCreateToken(false, typedToken);
      sent := PrepareIssue(githubInfo, token, title, pick, body);
      if sent.Some? && created.Success? {
        SetNumber(created.value);
      }
    }
  }
}
