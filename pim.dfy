/**
 * The in-memory project registry: a global list of project dicts, read by
 * two fold-equality filters and changed by an unvalidated append, an index
 * loop that rewrites the progress of matching projects, and an index loop
 * that pops matching projects from the list it is scanning.
 */
module Pim {
  import opened Results
  import opened Dicts

  const ProjectNumberKey := "project number"
  const TeamKey := "team"
  const EngineerKey := "infra engineer"
  const CustomerKey := "customer"
  const ProjectNameKey := "project name"
  const ProgressKey := "latest overall progress"

  function Project(number: string, team: string, engineer: string, customer: string, name: string, progress: string): Dict
  {
    map[ProjectNumberKey := JString(number), TeamKey := JString(team), EngineerKey := JString(engineer),
        CustomerKey := JString(customer), ProjectNameKey := JString(name), ProgressKey := JString(progress)]
  }

  /** The list the module starts with. */
  const InitialProjects: seq<Dict> := [
    Project("QKPH-TEST-0001", "IOT", "Louie", "DNPH", "Traceability", "50"),
    Project("QKPH-TEST-0002", "INF", "Francis", "KDDI", "Test Project 1", "60"),
    Project("QKPH-TEST-0003", "SEP", "Arjay", "Daiho", "Test Project 2", "40"),
    Project("QKPH-TEST-0004", "NET", "Francis", "DNPH", "Test Project 3", "70"),
    Project("QKPH-TEST-0005", "IOT", "Louie", "PMM", "Test Project 4", "90")
  ]

  /**
   * One iteration of the progress update on `d`: when its project number
   * fold-equals the body's, its progress becomes the body's, and a body
   * without a progress entry raises KeyError.
   */
  function ProgressStep(body: Dict, d: Dict): (r: Result<Dict, PyError>)
    ensures r == Err(AttributeError) <==> !HasText(d, ProjectNumberKey) || !HasText(body, ProjectNumberKey)
    ensures r == Err(KeyError) <==>
      HasText(body, ProjectNumberKey) && Matches(d, ProjectNumberKey, body[ProjectNumberKey].text) && ProgressKey !in body
    ensures r.Ok? ==> r.value.Keys <= d.Keys + {ProgressKey}
    ensures r.Ok? ==> forall k :: k in d && k != ProgressKey ==> k in r.value && r.value[k] == d[k]
  {
    match FieldAgrees(d, body, ProjectNumberKey)
    case Err(e) => Err(e)
    case Ok(m) =>
      if !m then Ok(d)
      else if ProgressKey in body then Ok(d[ProgressKey := body[ProgressKey]])
      else Err(KeyError)
  }

  function ProgressStepFor(body: Dict): Dict -> Result<Dict, PyError>
  {
    d => ProgressStep(body, d)
  }

  /**
   * The delete loop as written, from iteration `i` of `for i in range(n)`
   * on the current list `s`: `s[i]` raises IndexError once pops have made
   * the list shorter than `i + 1`, and a match is popped without leaving the
   * loop, so the next record slides into slot `i` and is never compared.
   */
  function DeleteLoop(s: seq<Dict>, projectNumber: string, i: nat, n: nat): (r: (seq<Dict>, Option<PyError>))
    decreases n - i
    ensures |r.0| <= |s|
    ensures r.1 != Some(KeyError)
    ensures r.1 == Some(AttributeError) ==> exists j :: 0 <= j < |s| && !HasText(s[j], ProjectNumberKey)
  {
    if i >= n then (s, None)
    else if i >= |s| then (s, Some(IndexError))
    else
      match FieldMatches(s[i], ProjectNumberKey, projectNumber)
      case Err(e) => (s, Some(e))
      case Ok(m) =>
        if m then DeleteLoop(s[..i] + s[i + 1..], projectNumber, i + 1, n)
        else DeleteLoop(s, projectNumber, i + 1, n)
  }

  class ProjectRegistry {
    var projects: seq<Dict>

    constructor ()
      ensures projects == InitialProjects
    {
      projects := InitialProjects;
    }

    /** The whole list, as it is. */
    method GetAllProjects() returns (r: seq<Dict>)
      ensures r == projects
    {
      r := projects;
    }

    /** The projects whose team fold-equals `team`. */
    method ReadTeamQuery(team: string) returns (r: Result<seq<Dict>, PyError>)
      ensures r == Filter(projects, Equals(TeamKey, team))
    {
      r := Filter(projects, Equals(TeamKey, team));
    }

    /** The projects whose team and infra engineer both fold-equal the queries. */
    method ReadTeamEngineerQuery(team: string, engineer: string) returns (r: Result<seq<Dict>, PyError>)
      ensures r == Filter(projects, BothEqual(TeamKey, team, EngineerKey, engineer))
    {
      r := Filter(projects, BothEqual(TeamKey, team, EngineerKey, engineer));
    }

    /** Appends the body as it came: no field is checked and project numbers may repeat. */
    method CreateProject(newProject: Dict)
      modifies this
      ensures projects == old(projects) + [newProject]
    {
      projects := projects + [newProject];
    }

    /** Rewrites, in list order, the progress of every project whose number fold-equals the body's. */
    method UpdateProgress(updatedProgress: Dict) returns (err: Option<PyError>)
      modifies this
      ensures (projects, err) == Sweep(old(projects), ProgressStepFor(updatedProgress), 0)
    {
      var i := 0;
      while i < |projects|
        invariant 0 <= i <= |projects|
        invariant Sweep(old(projects), ProgressStepFor(updatedProgress), 0) == Sweep(projects, ProgressStepFor(updatedProgress), i)
      {
        var r := ProgressStep(updatedProgress, projects[i]);
        if r.Err? {
          return Some(r.error);
        }
        projects := projects[i := r.value];
        i := i + 1;
      }
      return None;
    }

    /** The delete handler as written: pops every match it compares and runs past the end of the shortened list. */
    method DeleteProject(projectNumber: string) returns (err: Option<PyError>)
      modifies this
      ensures (projects, err) == DeleteLoop(old(projects), projectNumber, 0, |old(projects)|)
    {
      var n := |projects|;
      var i := 0;
      while i < n
        invariant 0 <= i <= n
        invariant DeleteLoop(old(projects), projectNumber, 0, n) == DeleteLoop(projects, projectNumber, i, n)
      {
        if i >= |projects| {
          return Some(IndexError);
        }
        var m := FieldMatches(projects[i], ProjectNumberKey, projectNumber);
        if m.Err? {
          return Some(m.error);
        }
        if m.value {
          projects := projects[..i] + projects[i + 1..];
        }
        i := i + 1;
      }
      return None;
    }

    /** The delete handler with `break` after the pop: only the first match goes, and nothing is raised past it. */
    method DeleteProjectFirstMatch(projectNumber: string) returns (err: Option<PyError>)
      modifies this
      ensures match SearchFrom(old(projects), ProjectNumberKey, projectNumber, 0)
        case Ok(Some(k)) => projects == old(projects)[..k] + old(projects)[k + 1..] && err == None
        case Ok(None) => projects == old(projects) && err == None
        case Err(e) => projects == old(projects) && err == Some(e)
    {
      projects, err := RemoveFirstMatch(projects, ProjectNumberKey, projectNumber);
    }
  }

  /**
   * When every project has a text number, the body has one, and the body
   * carries a progress entry, the update raises nothing, keeps the length,
   * gives every matching project the body's progress while keeping its other
   * entries, and leaves every other project as it was.
   */
  lemma UpdateProgressEffect(s: seq<Dict>, body: Dict) returns (t: seq<Dict>, err: Option<PyError>)
    requires forall j :: 0 <= j < |s| ==> HasText(s[j], ProjectNumberKey)
    requires HasText(body, ProjectNumberKey) && ProgressKey in body
    ensures (t, err) == Sweep(s, ProgressStepFor(body), 0)
    ensures err == None && |t| == |s|
    ensures forall j :: 0 <= j < |s| && Matches(s[j], ProjectNumberKey, body[ProjectNumberKey].text) ==>
      ProgressKey in t[j] && t[j][ProgressKey] == body[ProgressKey]
    ensures forall j, k :: 0 <= j < |s| && k in s[j] && k != ProgressKey ==> k in t[j] && t[j][k] == s[j][k]
    ensures forall j :: 0 <= j < |s| ==> t[j].Keys <= s[j].Keys + {ProgressKey}
    ensures forall j :: 0 <= j < |s| && !Matches(s[j], ProjectNumberKey, body[ProjectNumberKey].text) ==> t[j] == s[j]
  {
    t, err := Sweep(s, ProgressStepFor(body), 0).0, Sweep(s, ProgressStepFor(body), 0).1;
    SweepEffect(s, ProgressStepFor(body), 0);
  }

  /**
   * A body without a progress entry makes the update raise KeyError at the
   * first matching project; the projects before it do not match, so the list
   * is left as it was.
   */
  lemma UpdateProgressWithoutProgress(s: seq<Dict>, body: Dict, m: nat) returns (t: seq<Dict>, err: Option<PyError>)
    requires forall j :: 0 <= j < |s| ==> HasText(s[j], ProjectNumberKey)
    requires HasText(body, ProjectNumberKey) && ProgressKey !in body
    requires m < |s| && Matches(s[m], ProjectNumberKey, body[ProjectNumberKey].text)
    ensures (t, err) == Sweep(s, ProgressStepFor(body), 0)
    ensures err == Some(KeyError) && t == s
  {
    var step := ProgressStepFor(body);
    t, err := Sweep(s, step, 0).0, Sweep(s, step, 0).1;
    SweepEffect(s, step, 0);
    assert step(s[m]) == ProgressStep(body, s[m]) == Err(KeyError);
    var k :| 0 <= k < |s| && step(s[k]) == Err(err.value) &&
      (forall j :: 0 <= j < k ==> step(s[j]).Ok? && t[j] == step(s[j]).value) &&
      (forall j :: k <= j < |s| ==> t[j] == s[j]);
    assert step(s[k]) == ProgressStep(body, s[k]);
    forall j | 0 <= j < |s| ensures t[j] == s[j] {
      if j < k {
        assert step(s[j]) == ProgressStep(body, s[j]);
      }
    }
  }

  /** With no project matching, the delete loop changes nothing and raises nothing. */
  lemma {:induction false} DeleteLoopNoMatch(s: seq<Dict>, projectNumber: string, i: nat)
    requires forall j :: i <= j < |s| ==> Misses(s[j], ProjectNumberKey, projectNumber)
    decreases |s| - i
    ensures DeleteLoop(s, projectNumber, i, |s|) == (s, None)
  {
    if i < |s| {
      DeleteLoopNoMatch(s, projectNumber, i + 1);
    }
  }

  /** Iterations over projects that do not match change nothing. */
  lemma {:induction false} DeleteLoopSkips(s: seq<Dict>, projectNumber: string, i: nat, k: nat, n: nat)
    requires i <= k < n && k <= |s|
    requires forall j :: i <= j < k ==> Misses(s[j], ProjectNumberKey, projectNumber)
    decreases k - i
    ensures DeleteLoop(s, projectNumber, i, n) == DeleteLoop(s, projectNumber, k, n)
  {
    if i < k {
      DeleteLoopSkips(s, projectNumber, i + 1, k, n);
    }
  }

  /** The loop never touches a slot `j` before `i`. */
  lemma {:induction false} DeleteLoopKeepsSlot(s: seq<Dict>, projectNumber: string, i: nat, n: nat, j: nat)
    requires j < i && j < |s|
    decreases n - i
    ensures j < |DeleteLoop(s, projectNumber, i, n).0| && DeleteLoop(s, projectNumber, i, n).0[j] == s[j]
  {
    if i < n && i < |s| {
      match FieldMatches(s[i], ProjectNumberKey, projectNumber)
      case Err(e) =>
        assert DeleteLoop(s, projectNumber, i, n) == (s, Some(e));
      case Ok(m) =>
        if m {
          var s' := s[..i] + s[i + 1..];
          calc {
            DeleteLoop(s, projectNumber, i, n);
            DeleteLoop(s', projectNumber, i + 1, n);
          }
          assert j < |s'| && s'[j] == s[j];
          DeleteLoopKeepsSlot(s', projectNumber, i + 1, n, j);
        } else {
          calc {
            DeleteLoop(s, projectNumber, i, n);
            DeleteLoop(s, projectNumber, i + 1, n);
          }
          DeleteLoopKeepsSlot(s, projectNumber, i + 1, n, j);
        }
    } else {
      assert DeleteLoop(s, projectNumber, i, n).0 == s;
    }
  }

  /** The loop only removes records, each of them a match, and keeps the rest in order. */
  lemma {:induction false} DeleteLoopRemovesOnlyMatches(s: seq<Dict>, projectNumber: string, i: nat, n: nat)
    decreases n - i
    ensures |DeleteLoop(s, projectNumber, i, n).0| <= |s|
    ensures IsSubsequence(DeleteLoop(s, projectNumber, i, n).0, s)
    ensures forall d :: multiset(DeleteLoop(s, projectNumber, i, n).0)[d] <= multiset(s)[d]
    ensures forall d :: multiset(DeleteLoop(s, projectNumber, i, n).0)[d] < multiset(s)[d] ==>
      Matches(d, ProjectNumberKey, projectNumber)
  {
    if i < n && i < |s| {
      match FieldMatches(s[i], ProjectNumberKey, projectNumber)
      case Err(e) =>
        SubsequenceReflexive(s);
      case Ok(m) =>
        if m {
          var s' := s[..i] + s[i + 1..];
          DeleteLoopRemovesOnlyMatches(s', projectNumber, i + 1, n);
          SubsequenceOfRemoval(s, i);
          SubsequenceTransitive(DeleteLoop(s', projectNumber, i + 1, n).0, s', s);
          MultisetOfRemoval(s, i);
        } else {
          DeleteLoopRemovesOnlyMatches(s, projectNumber, i + 1, n);
        }
    } else {
      SubsequenceReflexive(s);
    }
  }

  /**
   * Once a pop has made the list shorter than the loop bound, the loop
   * cannot finish cleanly: it raises AttributeError at a record without a
   * text number, or else IndexError when `i` passes the shortened list.
   */
  lemma {:induction false} DeleteLoopFailsAfterPop(s: seq<Dict>, projectNumber: string, i: nat, n: nat)
    requires |s| < n && i <= |s| + 1 && i < n
    decreases n - i
    ensures DeleteLoop(s, projectNumber, i, n).1.Some?
    ensures (forall j :: 0 <= j < |s| ==> HasText(s[j], ProjectNumberKey)) ==>
      DeleteLoop(s, projectNumber, i, n).1 == Some(IndexError)
  {
    if i < |s| {
      match FieldMatches(s[i], ProjectNumberKey, projectNumber)
      case Err(e) =>
      case Ok(m) =>
        if m {
          var s' := s[..i] + s[i + 1..];
          DeleteLoopFailsAfterPop(s', projectNumber, i + 1, n);
          if forall j :: 0 <= j < |s| ==> HasText(s[j], ProjectNumberKey) {
            forall j | 0 <= j < |s'| ensures HasText(s'[j], ProjectNumberKey) {
              if j < i { assert s'[j] == s[j]; } else { assert s'[j] == s[j + 1]; }
            }
          }
        } else {
          DeleteLoopFailsAfterPop(s, projectNumber, i + 1, n);
        }
    }
  }

  /**
   * The iterations after the first pop, which happened at slot `k` and left
   * `s` with one record fewer than the bound: slots up to `k` are kept, and
   * the loop finishes cleanly only when `k` was the last slot.
   */
  lemma AfterFirstPop(s: seq<Dict>, projectNumber: string, k: nat) returns (t: seq<Dict>, err: Option<PyError>)
    requires k <= |s|
    ensures (t, err) == DeleteLoop(s, projectNumber, k + 1, |s| + 1)
    ensures k <= |t| && t[..k] == s[..k]
    ensures k == |s| <==> err == None
    ensures k == |s| ==> t == s
    ensures k < |s| ==> k < |t| && t[k] == s[k]
    ensures k < |s| && (forall j :: 0 <= j < |s| ==> HasText(s[j], ProjectNumberKey)) ==> err == Some(IndexError)
  {
    var n := |s| + 1;
    t, err := DeleteLoop(s, projectNumber, k + 1, n).0, DeleteLoop(s, projectNumber, k + 1, n).1;
    if k > 0 {
      DeleteLoopKeepsSlot(s, projectNumber, k + 1, n, k - 1);
    }
    assert t[..k] == s[..k] by {
      forall j | 0 <= j < k ensures t[j] == s[j] {
        DeleteLoopKeepsSlot(s, projectNumber, k + 1, n, j);
      }
    }
    if k < |s| {
      DeleteLoopKeepsSlot(s, projectNumber, k + 1, n, k);
      DeleteLoopFailsAfterPop(s, projectNumber, k + 1, n);
    }
  }

  /**
   * The delete handler as written, when the first match is at index `k`:
   * that record is removed and the ones before it stay. It finishes cleanly
   * only when `k` is the last index. Otherwise the record that slides into
   * slot `k` is kept uncompared, later matches may also be popped, and the
   * loop ends with an error after these changes: IndexError when every
   * record has a text number.
   */
  lemma DeleteFirstMatchAt(s: seq<Dict>, projectNumber: string, k: nat) returns (t: seq<Dict>, err: Option<PyError>)
    requires k < |s|
    requires forall j :: 0 <= j < k ==> Misses(s[j], ProjectNumberKey, projectNumber)
    requires Matches(s[k], ProjectNumberKey, projectNumber)
    ensures (t, err) == DeleteLoop(s, projectNumber, 0, |s|)
    ensures |t| < |s| && k <= |t| && t[..k] == s[..k]
    ensures IsSubsequence(t, s)
    ensures forall d :: multiset(t)[d] < multiset(s)[d] ==> Matches(d, ProjectNumberKey, projectNumber)
    ensures k == |s| - 1 <==> err == None
    ensures k == |s| - 1 ==> t == s[..k]
    ensures k < |s| - 1 ==> k < |t| && t[k] == s[k + 1]
    ensures k < |s| - 1 && (forall j :: 0 <= j < |s| ==> HasText(s[j], ProjectNumberKey)) ==> err == Some(IndexError)
  {
    var n := |s|;
    DeleteLoopSkips(s, projectNumber, 0, k, n);
    var s' := s[..k] + s[k + 1..];
    assert DeleteLoop(s, projectNumber, k, n) == DeleteLoop(s', projectNumber, k + 1, n);
    t, err := AfterFirstPop(s', projectNumber, k);
    assert s'[..k] == s[..k];
    if forall j :: 0 <= j < |s| ==> HasText(s[j], ProjectNumberKey) {
      forall j | 0 <= j < |s'| ensures HasText(s'[j], ProjectNumberKey) {
        if j < k { assert s'[j] == s[j]; } else { assert s'[j] == s[j + 1]; }
      }
    }
    PoppedOnlyMatches(s, projectNumber, k, t);
  }

  /** What the loop removes after popping slot `k`: only matches, the rest in order. */
  lemma PoppedOnlyMatches(s: seq<Dict>, projectNumber: string, k: nat, t: seq<Dict>)
    requires k < |s| && Matches(s[k], ProjectNumberKey, projectNumber)
    requires t == DeleteLoop(s[..k] + s[k + 1..], projectNumber, k + 1, |s|).0
    ensures |t| < |s|
    ensures IsSubsequence(t, s)
    ensures forall d :: multiset(t)[d] < multiset(s)[d] ==> Matches(d, ProjectNumberKey, projectNumber)
  {
    var s' := s[..k] + s[k + 1..];
    MultisetOfRemoval(s, k);
    DeleteLoopRemovesOnlyMatches(s', projectNumber, k + 1, |s|);
    SubsequenceOfRemoval(s, k);
    SubsequenceTransitive(t, s', s);
  }

  /** The no-match case of the delete handler as written: nothing changes and nothing is raised. */
  lemma DeleteWithoutMatch(s: seq<Dict>, projectNumber: string) returns (t: seq<Dict>, err: Option<PyError>)
    requires forall j :: 0 <= j < |s| ==> Misses(s[j], ProjectNumberKey, projectNumber)
    ensures (t, err) == DeleteLoop(s, projectNumber, 0, |s|)
    ensures t == s && err == None
  {
    DeleteLoopNoMatch(s, projectNumber, 0);
    t, err := s, None;
  }

  /**
   * Deleting "QKPH-TEST-0002" from the initial list: the project is removed,
   * the four others stay in order, and the call still raises IndexError.
   */
  lemma DeleteSecondInitialProject() returns (t: seq<Dict>, err: Option<PyError>)
    ensures (t, err) == DeleteLoop(InitialProjects, "QKPH-TEST-0002", 0, |InitialProjects|)
    ensures err == Some(IndexError)
    ensures t == [InitialProjects[0], InitialProjects[2], InitialProjects[3], InitialProjects[4]]
  {
    var s: seq<Dict> := InitialProjects;
    var pn: string := "QKPH-TEST-0002";
    assert Fold(pn)[13] == '2';
    assert Fold(s[0][ProjectNumberKey].text)[13] == '1';
    assert Fold(s[3][ProjectNumberKey].text)[13] == '4';
    assert Fold(s[4][ProjectNumberKey].text)[13] == '5';
    assert Misses(s[0], ProjectNumberKey, pn);
    assert Matches(s[1], ProjectNumberKey, pn);
    var s' := s[..1] + s[2..];
    assert s' == [s[0], s[2], s[3], s[4]];
    assert DeleteLoop(s, pn, 0, 5) == DeleteLoop(s, pn, 1, 5);
    assert DeleteLoop(s, pn, 1, 5) == DeleteLoop(s', pn, 2, 5);
    assert Misses(s'[2], ProjectNumberKey, pn);
    assert DeleteLoop(s', pn, 2, 5) == DeleteLoop(s', pn, 3, 5);
    assert Misses(s'[3], ProjectNumberKey, pn);
    assert DeleteLoop(s', pn, 3, 5) == DeleteLoop(s', pn, 4, 5);
    t, err := s', Some(IndexError);
  }
}
