/**
 * `createBranchFromIssue`: an issue or pull-request URL's path becomes the
 * branch name `<type>/<repo>-<number>`. The model starts from the path
 * (`url.pathname`); parsing the URL itself is not part of it.
 */
module Branch {
  import opened Wrappers
  import opened JsText

  predicate IsAsciiAlnum(c: char) {
    'a' <= c <= 'z' || 'A' <= c <= 'Z' || '0' <= c <= '9'
  }

  /** `repo.replace(/[^a-zA-Z0-9]/g, '-')`: each character outside the class becomes a hyphen. */
  function Clean(repo: string): (c: string)
    ensures |c| == |repo|
    ensures forall i :: 0 <= i < |repo| && IsAsciiAlnum(repo[i]) ==> c[i] == repo[i]
    ensures forall i :: 0 <= i < |repo| && !IsAsciiAlnum(repo[i]) ==> c[i] == '-'
  {
    if repo == [] then []
    else [if IsAsciiAlnum(repo[0]) then repo[0] else '-'] + Clean(repo[1..])
  }

  /** A name made of ASCII letters, digits and hyphens is left as it is. */
  lemma CleanKeepsSafeName(name: string)
    requires forall i :: 0 <= i < |name| ==> IsAsciiAlnum(name[i]) || name[i] == '-'
    ensures Clean(name) == name
  {
    assert forall i :: 0 <= i < |name| ==> Clean(name)[i] == name[i];
  }

  /** A cleaned name holds only ASCII letters, digits and hyphens, and cleaning it again changes nothing. */
  lemma CleanIsBranchSafe(repo: string)
    ensures forall i :: 0 <= i < |Clean(repo)| ==> IsAsciiAlnum(Clean(repo)[i]) || Clean(repo)[i] == '-'
    ensures Clean(Clean(repo)) == Clean(repo)
  {
    CleanKeepsSafeName(Clean(repo));
  }

  /**
   * `createBranchFromIssue` on the URL's path: None (`null`) when the last
   * segment is empty or not numeric for `isNaN`, or when there is no
   * third segment to take the repository name from.
   */
  function CreateBranchFromIssue(pathname: string): (r: Option<string>)
    ensures var parts := Split(pathname, '/'); var n := |parts|;
      && (r.Some? <==> (n >= 3 && parts[n - 1] != "" && IsNumericString(parts[n - 1])))
      && (r.Some? ==> r.value == parts[n - 2] + "/" + Clean(parts[2]) + "-" + parts[n - 1])
  {
    var pathParts := Split(pathname, '/');
    var n := |pathParts|;
    var issueNumber := pathParts[n - 1];
    if issueNumber == "" || !IsNumericString(issueNumber) then None
    // `pathParts[2]` is `undefined` below three parts, and `.replace` on it throws
    else if n < 3 then None
    else
      var issueType := pathParts[n - 2];
      Some(issueType + "/" + Clean(pathParts[2]) + "-" + issueNumber)
  }

  /** A path that ends in `/` (an empty last segment) gives no branch. */
  lemma TrailingSlashGivesNothing(pathname: string)
    requires |pathname| > 0 && pathname[|pathname| - 1] == '/'
    ensures CreateBranchFromIssue(pathname) == None
  {
    var parts := Split(pathname, '/');
    SplitLastIsSuffix(pathname, '/');
    var last := parts[|parts| - 1];
  }

  /** The branch for the path whose segments are `parts`. */
  lemma BranchOfSegments(parts: seq<string>)
    requires |parts| >= 3
    requires forall k :: 0 <= k < |parts| ==> '/' !in parts[k]
    requires parts[|parts| - 1] != "" && IsNumericString(parts[|parts| - 1])
    ensures var n := |parts|;
      CreateBranchFromIssue(Join(parts, '/')) == Some(parts[n - 2] + "/" + Clean(parts[2]) + "-" + parts[n - 1])
  {
    SplitJoin(parts, '/');
    BranchOfSplit(Join(parts, '/'), parts);
  }

  /** The branch for a path, given the segments it splits into. */
  lemma BranchOfSplit(pathname: string, parts: seq<string>)
    requires Split(pathname, '/') == parts
    requires |parts| >= 3
    requires parts[|parts| - 1] != "" && IsNumericString(parts[|parts| - 1])
    ensures var n := |parts|;
      CreateBranchFromIssue(pathname) == Some(parts[n - 2] + "/" + Clean(parts[2]) + "-" + parts[n - 1])
  {
  }

  /** Neither half of a branch name holds a slash besides the one between them. */
  lemma {:induction false} BranchNameHasNoSlash(repo: string, number: string)
    requires '/' !in number
    ensures '/' !in Clean(repo) + "-" + number
  {
    var c := Clean(repo);
    CleanIsBranchSafe(repo);
    var name := c + "-" + number;
    forall i | 0 <= i < |name| ensures name[i] != '/' {
      if i < |c| {
        assert name[i] == c[i];
      } else if i > |c| {
        assert name[i] == number[i - |c| - 1];
      }
    }
  }

  /** A derived branch splits at its only slash into the issue type and `<repo>-<number>`. */
  lemma BranchSplitsAtTheSlash(pathname: string)
    requires CreateBranchFromIssue(pathname).Some?
    ensures var parts := Split(pathname, '/'); var n := |parts|;
      Split(CreateBranchFromIssue(pathname).value, '/') == [parts[n - 2], Clean(parts[2]) + "-" + parts[n - 1]]
  {
    var parts := Split(pathname, '/');
    var n := |parts|;
    var name := Clean(parts[2]) + "-" + parts[n - 1];
    BranchNameHasNoSlash(parts[2], parts[n - 1]);
    assert CreateBranchFromIssue(pathname).value == parts[n - 2] + "/" + name;
    SplitTwo(parts[n - 2], name, '/');
  }

  /** Five segments joined with `/`, written out. */
  lemma JoinFive(parts: seq<string>)
    requires |parts| == 5
    ensures Join(parts, '/') == parts[0] + "/" + parts[1] + "/" + parts[2] + "/" + parts[3] + "/" + parts[4]
  {
    var tail := parts[3] + "/" + parts[4];
    assert Join(parts[4..], '/') == parts[4];
    assert Join(parts[3..], '/') == tail;
    assert Join(parts[2..], '/') == parts[2] + "/" + tail;
    assert Join(parts[1..], '/') == parts[1] + "/" + parts[2] + "/" + tail;
  }

  /** A non-empty run of digits is a slash-free segment that passes the `isNaN` test. */
  lemma DigitRunIsIssueNumber(number: string)
    requires |number| > 0 && Digits(number)
    ensures IsNumericString(number) && '/' !in number
  {
    DigitsAreNumeric(number);
    assert forall i :: 0 <= i < |number| ==> number[i] != '/';
  }

  /**
   * The usual GitHub path `/owner/repo/kind/number`, with segments `parts`,
   * gives the branch `kind/repo-number`. The issue number is restricted here
   * to a non-empty run of digits; the code itself accepts anything `isNaN`
   * accepts.
   */
  lemma IssuePathGivesBranch(parts: seq<string>)
    requires |parts| == 5 && parts[0] == ""
    requires forall k :: 1 <= k < 4 ==> '/' !in parts[k]
    requires |parts[4]| > 0 && Digits(parts[4])
    ensures Join(parts, '/') == "/" + parts[1] + "/" + parts[2] + "/" + parts[3] + "/" + parts[4]
    ensures CreateBranchFromIssue(Join(parts, '/')) == Some(parts[3] + "/" + Clean(parts[2]) + "-" + parts[4])
  {
    JoinFive(parts);
    assert parts[0] + "/" == "/";
    DigitRunIsIssueNumber(parts[4]);
    assert forall k :: 0 <= k < |parts| ==> '/' !in parts[k];
    BranchOfSegments(parts);
  }

  /** A last segment that `isNaN` rejects gives no branch, e.g. `/org/repo/pull/notanumber`. */
  lemma NonNumericIssueGivesNothing(parts: seq<string>)
    requires |parts| >= 1
    requires forall k :: 0 <= k < |parts| ==> '/' !in parts[k]
    requires !IsNumericString(parts[|parts| - 1])
    ensures CreateBranchFromIssue(Join(parts, '/')) == None
  {
    SplitJoin(parts, '/');
  }

  /** A path with fewer than three segments gives no branch, whatever its last segment. */
  lemma ShortPathGivesNothing(parts: seq<string>)
    requires 1 <= |parts| < 3
    requires forall k :: 0 <= k < |parts| ==> '/' !in parts[k]
    ensures CreateBranchFromIssue(Join(parts, '/')) == None
  {
    SplitJoin(parts, '/');
  }

  /**
   * The code accepts more than digits as an issue number: `/o/r/issues/1.5`
   * gives the branch `issues/r-1.5`.
   */
  lemma FractionalIssueNumberAccepted(parts: seq<string>, whole: string, frac: string)
    requires |parts| >= 3
    requires forall k :: 0 <= k < |parts| ==> '/' !in parts[k]
    requires |whole| > 0 && Digits(whole) && |frac| > 0 && Digits(frac)
    requires parts[|parts| - 1] == whole + "." + frac
    ensures var n := |parts|;
      CreateBranchFromIssue(Join(parts, '/')) == Some(parts[n - 2] + "/" + Clean(parts[2]) + "-" + parts[n - 1])
  {
    FractionIsNumeric(whole, frac);
    BranchOfSegments(parts);
  }
}
