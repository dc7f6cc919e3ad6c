/** What the issue provider does with a successful `ghissues.list` answer:
    reshape the API records into tree nodes, and decide whether a new open
    issue is announced by comparing the largest issue number with the number
    kept in `res/number.json`. */
module IssueLoading {
  import opened Wrappers
  import opened JsValues
  import opened IssueTree

  /** The parts of an API issue record the provider reads. */
  datatype RawLabel = RawLabel(name: string)
  datatype RawIssue = RawIssue(id: int, title: string, body: string, labels: seq<RawLabel>, number: int)

  /** `res/number.json`: absent, present but unreadable, or its text. */
  datatype NumberFile = NoNumberFile | UnreadableNumberFile | NumberText(text: string)

  /** `i.labels.map(l => l.name)`. */
  function LabelNames(labels: seq<RawLabel>): (r: seq<string>)
    ensures |r| == |labels|
    ensures forall k :: 0 <= k < |r| ==> r[k] == labels[k].name
  {
    if labels == [] then [] else [labels[0].name] + LabelNames(labels[1..])
  }

  function ToIssueNode(i: RawIssue): IssueNode {
    IssueItem(i.id, i.title, i.body, LabelNames(i.labels), i.number)
  }

  /** `result.map(...)` in `loadIssues`: one issue node per record, in order. */
  function Reshape(result: seq<RawIssue>): (r: seq<IssueNode>)
    ensures |r| == |result|
    ensures forall k :: 0 <= k < |r| ==>
      && r[k].id == result[k].id && r[k].title == result[k].title
      && r[k].body == result[k].body && r[k].number == result[k].number
      && r[k].labels == LabelNames(result[k].labels)
  {
    if result == [] then [] else [ToIssueNode(result[0])] + Reshape(result[1..])
  }

  /** `result.map(r => r.number)`. */
  function Numbers(result: seq<RawIssue>): (r: seq<int>)
    ensures |r| == |result|
    ensures forall k :: 0 <= k < |r| ==> r[k] == result[k].number
  {
    if result == [] then [] else [result[0].number] + Numbers(result[1..])
  }

  /** `Math.max(...ns)` on a non-empty list. */
  function Max(ns: seq<int>): (m: int)
    requires |ns| > 0
    ensures m in ns
    ensures forall k :: 0 <= k < |ns| ==> ns[k] <= m
  {
    if |ns| == 1 then ns[0]
    else
      var rest := Max(ns[1..]);
      if ns[0] >= rest then ns[0] else rest
  }

  /** The index of `result.filter(r => r.number == n)[0]`. */
  function FirstWithNumber(result: seq<RawIssue>, n: int): (k: nat)
    requires exists j :: 0 <= j < |result| && result[j].number == n
    ensures k < |result| && result[k].number == n
    ensures forall j :: 0 <= j < k ==> result[j].number != n
  {
    if result[0].number == n then 0
    else
      assert exists j :: 0 <= j < |result[1..]| && result[1..][j].number == n by {
        var j :| 0 <= j < |result| && result[j].number == n;
        assert j > 0 && result[1..][j - 1].number == n;
      }
      1 + FirstWithNumber(result[1..], n)
  }

  /** The outcome of the notification step for the `open` state. */
  datatype Toast =
    | NoToast
    | ShowNewIssue(message: string, newNumber: int)   // message shown, number then stored
    | ToastCrash   // `issue.body` on `undefined`: nothing shown, nothing stored

  const NewIssuePrefix := "新问题："

  /** Whether the stored number asks for a notification about `max`: no file,
      or a file whose `parseInt` is (not NaN and) below `max`. An unreadable
      file is caught and counts as "no". */
  function Fires(file: NumberFile, max: int): (b: bool)
    ensures file.NoNumberFile? ==> b
    ensures file.UnreadableNumberFile? ==> !b
    ensures file.NumberText? ==> (b <==> ParseInt(file.text).Some? && ParseInt(file.text).value < max)
  {
    file.NoNumberFile? || (file.NumberText? && LessThan(ParseInt(file.text), max))
  }

  /** The notification decision of `loadIssues('open')` for an API answer. */
  function NewIssueToast(result: seq<RawIssue>, file: NumberFile): (t: Toast)
    ensures |result| == 0 ==> (t == ToastCrash <==> file.NoNumberFile?) && !t.ShowNewIssue?
    ensures |result| > 0 ==> !t.ToastCrash?
    ensures |result| > 0 ==> (t.ShowNewIssue? <==> Fires(file, Max(Numbers(result))))
    ensures t.ShowNewIssue? ==>
      && (forall k :: 0 <= k < |result| ==> result[k].number <= t.newNumber)
      && (exists k :: 0 <= k < |result| && result[k].number == t.newNumber
                      && t.message == NewIssuePrefix + result[k].body
                      && forall j :: 0 <= j < k ==> result[j].number != t.newNumber)
  {
    if |result| == 0 then
      // Math.max() is -Infinity: no number is below it, and with no file the
      // filter finds nothing to read `body` from.
      if file.NoNumberFile? then ToastCrash else NoToast
    else
      var ns := Numbers(result);
      var max := Max(ns);
      if !Fires(file, max) then NoToast
      else
        assert exists j :: 0 <= j < |result| && result[j].number == max by {
          var j :| 0 <= j < |ns| && ns[j] == max;
        }
        var k := FirstWithNumber(result, max);
        ShowNewIssue(NewIssuePrefix + result[k].body, max)
  }

  /** A number file written by `setNumber(stored)` fires exactly for a
      larger maximum. */
  lemma StoredNumberFires(stored: int, max: int)
    ensures Fires(NumberText(IntToString(stored)), max) <==> stored < max
  {
    ParseIntOfIntToString(stored);
  }

  /** The number file holds the decimal text of the highest number already
      announced: another notification comes exactly when a larger one appears. */
  lemma NotifiesOnlyOnIncrease(stored: int, result: seq<RawIssue>)
    requires |result| > 0
    ensures NewIssueToast(result, NumberText(IntToString(stored))).ShowNewIssue?
            <==> stored < Max(Numbers(result))
  {
    StoredNumberFires(stored, Max(Numbers(result)));
  }

  /** After a notification stores its number, the same answer announces nothing. */
  lemma NotifiesOnce(result: seq<RawIssue>, file: NumberFile)
    requires NewIssueToast(result, file).ShowNewIssue?
    ensures NewIssueToast(result, NumberText(IntToString(NewIssueToast(result, file).newNumber))) == NoToast
  {
    NotifiesOnlyOnIncrease(NewIssueToast(result, file).newNumber, result);
  }

  /** After a successful load the tree shows one node per API record, in
      order, or the single "no issues" label for an empty answer. */
  lemma ShownAfterLoad(info: GithubInfo, cache: Cache, state: IssueState, result: seq<RawIssue>)
    requires HasGithubConfig(info)
    ensures var shown := GetChildren(info, cache.With(state, Some(Reshape(result))), Some(StateItem(state)));
            && |shown| == (if |result| == 0 then 1 else |result|)
            && (|result| == 0 ==> shown == [LabelItem(NoIssuesText)])
            && (forall k :: 0 <= k < |result| ==> shown[k].IssueItem? && shown[k].number == result[k].number)
  {
  }
}
