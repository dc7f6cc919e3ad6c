/** The issue tree of the sidebar: its nodes, the per-state caches it is drawn
    from, and the pure decisions of the issue provider (which children a node
    has, how a node is shown, which icon an issue gets, how a picked type maps
    to a GitHub label, how the new-issue prompts validate, the issue URL). */
module IssueTree {
  import opened Wrappers
  import opened JsValues

  /** Owner and repository found in the workspace's `.git/config`; both are
      empty when no GitHub remote was found. */
  datatype GithubInfo = GithubInfo(user: string, repo: string)

  datatype IssueState = Open | Closed

  /** The three kinds of tree node: an issue, an issue state, a text label. */
  datatype DataNode =
    | IssueItem(id: int, title: string, body: string, labels: seq<string>, number: int)
    | StateItem(name: IssueState)
    | LabelItem(text: string)

  type IssueNode = n: DataNode | n.IssueItem? witness IssueItem(0, "", "", [], 0)

  /** The two issue caches; `None` is the `null` that means "still loading". */
  datatype Cache = Cache(open: Option<seq<IssueNode>>, closed: Option<seq<IssueNode>>) {
    function Get(state: IssueState): Option<seq<IssueNode>> {
      if state == Open then open else closed
    }

    /** The cache with the entry of `state` replaced and the other one kept. */
    function With(state: IssueState, entry: Option<seq<IssueNode>>): (c: Cache)
      ensures c.Get(state) == entry
      ensures forall other :: other != state ==> c.Get(other) == Get(other)
    {
      if state == Open then Cache(entry, closed) else Cache(open, entry)
    }
  }

  const LoadingText := "加载中..."
  const NoIssuesText := "暂无问题"
  const NotGithubText := "当前项目非GitHub项目"
  const OpenStateText := "开启中的问题"
  const ClosedStateText := "已关闭的问题"
  const TitleTooLongText := "字数太多"
  const BodyTooShortText := "至少输入5个字"

  /** `hasGithubConfig`: JavaScript truthiness of two strings. */
  function HasGithubConfig(info: GithubInfo): (b: bool)
    ensures b <==> |info.user| > 0 && |info.repo| > 0
  {
    info.user != "" && info.repo != ""
  }

  /** `getChildren(elem)`, where `None` is the root (no element). */
  function GetChildren(info: GithubInfo, cache: Cache, elem: Option<DataNode>): (r: seq<DataNode>)
    ensures !HasGithubConfig(info) ==> r == []
    ensures HasGithubConfig(info) && elem.None? ==> r == [StateItem(Open), StateItem(Closed)]
    ensures elem.Some? && !elem.value.StateItem? ==> r == []
    ensures HasGithubConfig(info) && elem.Some? && elem.value.StateItem? ==>
      var entry := cache.Get(elem.value.name);
      && (entry.None? ==> r == [LabelItem(LoadingText)])
      && (entry == Some([]) ==> r == [LabelItem(NoIssuesText)])
      && (entry.Some? && entry.value != [] ==> r == entry.value)
  {
    if !HasGithubConfig(info) then []
    else match elem
      case None => [StateItem(Open), StateItem(Closed)]
      case Some(node) =>
        if !node.StateItem? then []
        else match cache.Get(node.name)
          case None => [LabelItem(LoadingText)]
          case Some(issues) => if |issues| <= 0 then [LabelItem(NoIssuesText)] else issues
  }

  /** What `vscode.TreeItemCollapsibleState` offers. */
  datatype Collapsible = NotCollapsible | Collapsed | Expanded

  datatype Command = Command(title: string, command: string, arguments: seq<DataNode>)

  /** The fields of the tree item object literals the provider builds; an
      absent property is `None`. The icon path is relative to the extension. */
  datatype TreeItem = TreeItem(
    id: Option<string>, labelText: string, iconPath: Option<string>, tooltip: Option<string>,
    collapsibleState: Option<Collapsible>, contextValue: Option<string>, command: Option<Command>)

  function PlainItem(text: string): TreeItem {
    TreeItem(None, text, None, None, None, None, None)
  }

  /** `getLabelImage`: the icon of an issue, by label priority. */
  function LabelImage(labels: seq<string>): (r: string)
    ensures r == "bug.svg" <==> "bug" in labels
    ensures r == "question.svg" <==> "bug" !in labels && "question" in labels
    ensures r == "require.svg" <==> "bug" !in labels && "question" !in labels && "help wanted" in labels
    ensures r == "other.svg" <==> "bug" !in labels && "question" !in labels && "help wanted" !in labels
  {
    if IndexOf(labels, "bug") >= 0 then "bug.svg"
    else if IndexOf(labels, "question") >= 0 then "question.svg"
    else if IndexOf(labels, "help wanted") >= 0 then "require.svg"
    else "other.svg"
  }

  /** `getTreeItem(elem)`. */
  function GetTreeItem(info: GithubInfo, elem: DataNode): (r: TreeItem)
    ensures !HasGithubConfig(info) ==> r == PlainItem(NotGithubText)
    ensures HasGithubConfig(info) && elem.IssueItem? ==>
      && r.id == Some(IntToString(elem.id))
      && r.labelText == elem.title && r.tooltip == Some(elem.title)
      && r.iconPath == Some("res/" + LabelImage(elem.labels))
      && r.collapsibleState == Some(NotCollapsible)
      && r.contextValue == Some("openedIssue")
      && r.command == Some(Command("查看Issue", "gitissue.viewOnCommand", [elem]))
    ensures HasGithubConfig(info) && elem.StateItem? ==>
      r == TreeItem(None, if elem.name == Open then OpenStateText else ClosedStateText, None, None,
                    Some(if elem.name == Open then Expanded else Collapsed), None, None)
    ensures HasGithubConfig(info) && elem.LabelItem? ==> r == PlainItem(elem.text)
  {
    if !HasGithubConfig(info) then PlainItem(NotGithubText)
    else match elem
      case IssueItem(id, title, _, labels, _) =>
        TreeItem(Some(IntToString(id)), title, Some("res/" + LabelImage(labels)), Some(title),
                 Some(NotCollapsible), Some("openedIssue"),
                 Some(Command("查看Issue", "gitissue.viewOnCommand", [elem])))
      case StateItem(name) =>
        TreeItem(None, if name == Open then OpenStateText else ClosedStateText, None, None,
                 Some(if name == Open then Expanded else Collapsed), None, None)
      case LabelItem(text) => PlainItem(text)
  }

  /** A node the tree shows as expandable is exactly a node with children:
      the collapsible state chosen by `getTreeItem` agrees with `getChildren`. */
  lemma ExpandableIffHasChildren(info: GithubInfo, cache: Cache, elem: DataNode)
    requires HasGithubConfig(info)
    ensures (GetTreeItem(info, elem).collapsibleState in {Some(Collapsed), Some(Expanded)})
            <==> |GetChildren(info, cache, Some(elem))| > 0
  {
  }

  /** `labelName`: the issue type picked in the quick pick, as a GitHub label. */
  function LabelName(pick: string): (r: Option<string>)
    ensures r == Some("bug") <==> pick == "Bug"
    ensures r == Some("help wanted") <==> pick == "需求"
    ensures r == Some("question") <==> pick == "问题"
    ensures r.None? <==> pick != "Bug" && pick != "需求" && pick != "问题"
  {
    if pick == "Bug" then Some("bug")
    else if pick == "需求" then Some("help wanted")
    else if pick == "问题" then Some("question")
    else None
  }

  /** The title prompt's `validateInput`: a message rejects the input. */
  function TitleValidation(str: string): (r: Option<string>)
    ensures r.Some? <==> |str| > 20
    ensures r.Some? ==> r.value == TitleTooLongText
  {
    if str != "" && |str| > 20 then Some(TitleTooLongText) else None
  }

  /** The body prompt's `validateInput`: non-empty input needs 5 characters. */
  function BodyValidation(str: string): (r: Option<string>)
    ensures r.Some? <==> 0 < |str| < 5
    ensures r.Some? ==> r.value == BodyTooShortText
  {
    if str != "" && |str| < 5 then Some(BodyTooShortText) else None
  }

  /** The request body `ghissues.create` is given. */
  datatype NewIssue = NewIssue(title: string, body: string, labels: Option<seq<string>>)

  /** The decisions of `createIssue` once the token is known: it stops unless
      the project is configured, the token, title, type and body are all
      non-empty; otherwise it sends the title, body and, only when the picked
      type maps to one, a one-element label list. `None` for an answer means
      the prompt was dismissed. */
  function PrepareIssue(info: GithubInfo, token: string, title: Option<string>,
                        pick: Option<string>, body: Option<string>): (r: Option<NewIssue>)
    ensures r.Some? <==>
      HasGithubConfig(info) && token != "" && title.GetOr("") != "" && pick.GetOr("") != ""
      && body.GetOr("") != ""
    ensures r.Some? ==> r.value.title == title.value && r.value.body == body.value
    ensures r.Some? ==> r.value.labels == (match LabelName(pick.value)
                                           case Some(l) => Some([l])
                                           case None => None)
  {
    if !HasGithubConfig(info) || token == "" then None
    else if title.GetOr("") == "" then None
    else if pick.GetOr("") == "" then None
    else if body.GetOr("") == "" then None
    else
      var name := LabelName(pick.value);
      Some(NewIssue(title.value, body.value, if name.Some? then Some([name.value]) else None))
  }

  /** Answers that passed the prompts' validation give an issue whose title has
      1 to 20 characters and whose body has at least 5. */
  lemma SubmittedIssueIsValid(info: GithubInfo, token: string, title: string, pick: string, body: string)
    requires TitleValidation(title).None? && BodyValidation(body).None?
    requires PrepareIssue(info, token, Some(title), Some(pick), Some(body)).Some?
    ensures var issue := PrepareIssue(info, token, Some(title), Some(pick), Some(body)).value;
            1 <= |issue.title| <= 20 && |issue.body| >= 5
  {
  }

  const GithubPrefix := "https://github.com/"

  /** `getIssueUrl(number)`. */
  function GetIssueUrl(info: GithubInfo, number: int): (r: string)
    ensures |GithubPrefix| < |r| && r[..|GithubPrefix|] == GithubPrefix
    ensures |IntToString(number)| < |r| && r[|r| - |IntToString(number)|..] == IntToString(number)
  {
    GithubPrefix + info.user + "/" + info.repo + "/issues/" + IntToString(number)
  }

  /** The part between a known prefix and a known suffix. */
  lemma MiddleOf(a: string, m: string, z: string)
    ensures (a + m + z)[|a|..|a + m + z| - |z|] == m
  {
    assert (a + m + z)[|a|..] == m + z;
  }

  /** Between the site prefix and the number the URL names the repository's
      issue list: `user/repo/issues/`. */
  lemma IssueUrlNamesRepository(info: GithubInfo, number: int)
    ensures var r := GetIssueUrl(info, number);
            r[|GithubPrefix|..|r| - |IntToString(number)|] == info.user + "/" + info.repo + "/issues/"
  {
    var mid := info.user + "/" + info.repo + "/issues/";
    assert GetIssueUrl(info, number) == GithubPrefix + mid + IntToString(number);
    MiddleOf(GithubPrefix, mid, IntToString(number));
  }

  /** Different issue numbers of one repository get different URLs. */
  lemma IssueUrlInjective(info: GithubInfo, a: int, b: int)
    requires GetIssueUrl(info, a) == GetIssueUrl(info, b)
    ensures a == b
  {
    var prefix := GithubPrefix + info.user + "/" + info.repo + "/issues/";
    assert GetIssueUrl(info, a)[|prefix|..] == IntToString(a);
    assert GetIssueUrl(info, b)[|prefix|..] == IntToString(b);
    IntToStringInjective(a, b);
  }
}
