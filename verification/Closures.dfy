/** The two dependency worklists: scripts reachable from release entry points, and local Python imports. */
module Closures {
  import opened Prelude

  // Reachability.

  ghost predicate Leads(next: string -> set<string>, path: seq<string>) {
    forall k | 0 < k < |path| :: path[k] in next(path[k - 1])
  }

  ghost predicate Connects(next: string -> set<string>, entries: seq<string>, path: seq<string>, q: string) {
    path != [] && path[0] in entries && path[|path| - 1] == q && Leads(next, path)
  }

  ghost predicate Reachable(next: string -> set<string>, entries: seq<string>, q: string) {
    exists path :: Connects(next, entries, path, q)
  }

  lemma EntryIsReachable(next: string -> set<string>, entries: seq<string>, q: string)
    requires q in entries
    ensures Reachable(next, entries, q)
  {
    assert Connects(next, entries, [q], q);
  }

  lemma NextIsReachable(next: string -> set<string>, entries: seq<string>, p: string, q: string)
    requires Reachable(next, entries, p) && q in next(p)
    ensures Reachable(next, entries, q)
  {
    var path :| Connects(next, entries, path, p);
    assert Connects(next, entries, path + [q], q);
  }

  /** A closed set that holds the entries holds everything reachable. */
  lemma {:induction false} ClosedHoldsReachable(next: string -> set<string>, entries: seq<string>, s: set<string>, q: string)
    requires (forall p | p in entries :: p in s) && (forall p, r | p in s && r in next(p) :: r in s)
    requires Reachable(next, entries, q)
    ensures q in s
  {
    var path :| Connects(next, entries, path, q);
    PathStays(next, s, path, |path| - 1);
  }

  lemma {:induction false} PathStays(next: string -> set<string>, s: set<string>, path: seq<string>, k: nat)
    requires k < |path| && Leads(next, path) && path[0] in s
    requires forall p, r | p in s && r in next(p) :: r in s
    ensures path[k] in s
    decreases k
  {
    if k > 0 {
      PathStays(next, s, path, k - 1);
    }
  }

  /** A worklist on its way: all it knows is reachable, and what it has expanded leads nowhere unknown. */
  ghost predicate Progress(next: string -> set<string>, entries: seq<string>, done: set<string>, pending: seq<string>) {
    && (forall p | p in done || p in pending :: Reachable(next, entries, p))
    && (forall p | p in entries :: p in done || p in pending)
    && forall p, q | p in done && q in next(p) :: q in done || q in pending
  }

  lemma ProgressStarts(next: string -> set<string>, entries: seq<string>)
    ensures Progress(next, entries, {}, entries)
  {
    forall p | p in entries ensures Reachable(next, entries, p) {
      EntryIsReachable(next, entries, p);
    }
  }

  /** Taking the last pending path and pushing what it leads to. */
  lemma ProgressStep(next: string -> set<string>, entries: seq<string>, done: set<string>, pending: seq<string>, found: seq<string>)
    requires pending != [] && Progress(next, entries, done, pending)
    requires forall q :: q in found <==> q in next(pending[|pending| - 1])
    ensures Progress(next, entries, done + {pending[|pending| - 1]}, pending[..|pending| - 1] + found)
  {
    var path := pending[|pending| - 1];
    assert forall p | p in pending :: p in pending[..|pending| - 1] || p == path;
    forall q | q in found ensures Reachable(next, entries, q) {
      NextIsReachable(next, entries, path, q);
    }
  }

  /** Taking it when it was expanded before. */
  lemma ProgressSkip(next: string -> set<string>, entries: seq<string>, done: set<string>, pending: seq<string>)
    requires pending != [] && Progress(next, entries, done, pending) && pending[|pending| - 1] in done
    ensures Progress(next, entries, done, pending[..|pending| - 1])
  {
    assert forall p | p in pending :: p in pending[..|pending| - 1] || p == pending[|pending| - 1];
  }

  lemma ProgressEnds(next: string -> set<string>, entries: seq<string>, done: set<string>)
    requires Progress(next, entries, done, [])
    ensures forall q :: q in done <==> Reachable(next, entries, q)
  {
    forall q | Reachable(next, entries, q) ensures q in done {
      ClosedHoldsReachable(next, entries, done, q);
    }
  }

  // Scripts.

  /** The repository as the script closure sees it: scripts spell their references, and resolving makes them paths. */
  datatype Repository = Repository(
    files: set<string>,
    spellings: string -> set<string>,
    resolve: string -> string,
    inside: string -> bool,
    optional: string -> bool,
    testHelper: string -> bool,
    checker: string)

  /** The spellings of a script that resolve to one path, among some of them. */
  function Spelled(repo: Repository, among: set<string>, q: string): set<string> {
    set s | s in among && repo.resolve(s) == q
  }

  predicate Refers(repo: Repository, p: string, q: string) {
    exists s :: s in repo.spellings(p) && repo.resolve(s) == q
  }

  /** The references a script is followed into. */
  function Followed(repo: Repository, p: string): set<string> {
    if p == repo.checker then {}
    else set s | s in repo.spellings(p) && FollowsTo(repo, repo.resolve(s)) :: repo.resolve(s)
  }

  predicate FollowsTo(repo: Repository, q: string) {
    repo.inside(q) && q in repo.files && !repo.testHelper(q)
  }

  function FollowedFrom(repo: Repository): string -> set<string> {
    p => Followed(repo, p)
  }

  /** A path to report when it is referred to: outside the root, or missing and not optional. */
  predicate Reportable(repo: Repository, q: string) {
    !repo.inside(q) || (q !in repo.files && !repo.optional(q))
  }

  predicate Broken(repo: Repository, p: string, q: string) {
    p != repo.checker && Refers(repo, p, q) && Reportable(repo, q)
  }

  /** How often a script's loop reports a path: once for every spelling of it. */
  function Times(repo: Repository, p: string, among: set<string>, q: string): nat {
    if p != repo.checker && Reportable(repo, q) then |Spelled(repo, among, q)| else 0
  }

  lemma OneMoreSpelling(repo: Repository, among: set<string>, s: string)
    requires s !in among
    ensures forall q :: |Spelled(repo, among + {s}, q)| == |Spelled(repo, among, q)| + if q == repo.resolve(s) then 1 else 0
  {
    forall q ensures |Spelled(repo, among + {s}, q)| == |Spelled(repo, among, q)| + if q == repo.resolve(s) then 1 else 0 {
      assert Spelled(repo, among + {s}, q) == Spelled(repo, among, q) + if q == repo.resolve(s) then {s} else {};
    }
  }

  /** The references of one script: what to follow, and what to report, once for every spelling. */
  method Expand(repo: Repository, path: string) returns (found: seq<string>, broken: seq<(string, string)>)
    requires path != repo.checker
    ensures forall q :: q in found <==> q in Followed(repo, path)
    ensures forall r :: multiset(broken)[r] == if r.0 == path then Times(repo, path, repo.spellings(path), r.1) else 0
  {
    found, broken := [], [];
    var todo := repo.spellings(path);
    while todo != {}
      invariant todo <= repo.spellings(path)
      invariant forall q :: q in found <==>
        FollowsTo(repo, q) && exists s :: s in repo.spellings(path) - todo && repo.resolve(s) == q
      invariant forall r ::
        multiset(broken)[r] == if r.0 == path then Times(repo, path, repo.spellings(path) - todo, r.1) else 0
      decreases todo
    {
      var spelling :| spelling in todo;
      OneMoreSpelling(repo, repo.spellings(path) - todo, spelling);
      assert repo.spellings(path) - (todo - {spelling}) == repo.spellings(path) - todo + {spelling};
      todo := todo - {spelling};
      var reference := repo.resolve(spelling);
      if !repo.inside(reference) {
        broken := broken + [(path, reference)];
      } else if reference !in repo.files {
        if !repo.optional(reference) {
          broken := broken + [(path, reference)];
        }
      } else if !repo.testHelper(reference) {
        found := found + [reference];
      }
    }
    assert repo.spellings(path) - {} == repo.spellings(path);
  }

  /** The script closure visits exactly what is reachable, and reports every broken reference of it, spelling by spelling. */
  method DependencyClosure(repo: Repository, entries: seq<string>)
    returns (visited: set<string>, missing: seq<(string, string)>)
    requires forall p | p in entries :: p in repo.files
    ensures forall q :: q in visited <==> Reachable(FollowedFrom(repo), entries, q)
    ensures forall r :: r in missing <==> r.0 in visited && Broken(repo, r.0, r.1)
    ensures NoRepeats(missing) <==> !SpelledTwice(repo, visited)
  {
    ghost var next := FollowedFrom(repo);
    var pending := entries;
    visited, missing := {}, [];
    ProgressStarts(next, entries);
    while pending != []
      invariant Progress(next, entries, visited, pending)
      invariant Reports(repo, visited, missing)
      decreases repo.files - visited, |pending|
    {
      var path := pending[|pending| - 1];
      var found: seq<string>, broken: seq<(string, string)> := [], [];
      if path in visited {
        ProgressSkip(next, entries, visited, pending);
        pending := pending[..|pending| - 1];
        continue;
      }
      ReachableIsFile(repo, entries, path);
      if path != repo.checker {
        found, broken := Expand(repo, path);
      }
      ProgressStep(next, entries, visited, pending, found);
      ReportsGrow(repo, visited, missing, path, broken);
      pending := pending[..|pending| - 1] + found;
      visited := visited + {path};
      missing := missing + broken;
    }
    ProgressEnds(next, entries, visited);
    ReportsAreBroken(repo, visited, missing);
    RepeatsIffSpelledTwice(repo, visited, missing);
  }

  lemma ReachableIsFile(repo: Repository, entries: seq<string>, q: string)
    requires Reachable(FollowedFrom(repo), entries, q) && forall p | p in entries :: p in repo.files
    ensures q in repo.files
  {
    ClosedHoldsReachable(FollowedFrom(repo), entries, repo.files, q);
  }

  ghost predicate Reports(repo: Repository, visited: set<string>, missing: seq<(string, string)>) {
    forall r :: multiset(missing)[r] == if r.0 in visited then Times(repo, r.0, repo.spellings(r.0), r.1) else 0
  }

  lemma ReportsGrow(repo: Repository, visited: set<string>, missing: seq<(string, string)>, path: string, broken: seq<(string, string)>)
    requires Reports(repo, visited, missing) && path !in visited
    requires forall r :: multiset(broken)[r] == if r.0 == path then Times(repo, path, repo.spellings(path), r.1) else 0
    ensures Reports(repo, visited + {path}, missing + broken)
  {
    assert multiset(missing + broken) == multiset(missing) + multiset(broken);
  }

  lemma ReportsAreBroken(repo: Repository, visited: set<string>, missing: seq<(string, string)>)
    requires Reports(repo, visited, missing)
    ensures forall r :: r in missing <==> r.0 in visited && Broken(repo, r.0, r.1)
  {
    forall r ensures r in missing <==> r.0 in visited && Broken(repo, r.0, r.1) {
      assert r in missing <==> multiset(missing)[r] > 0;
      ReferredIsSpelled(repo, r.0, r.1);
    }
  }

  lemma ReferredIsSpelled(repo: Repository, p: string, q: string)
    ensures Refers(repo, p, q) <==> |Spelled(repo, repo.spellings(p), q)| > 0
  {
    var spelled := Spelled(repo, repo.spellings(p), q);
    assert spelled != {} <==> exists s :: s in spelled;
    assert forall s :: s in spelled <==> s in repo.spellings(p) && repo.resolve(s) == q;
  }

  /** Two spellings of one script resolve to one path that is reported. */
  ghost predicate SpelledTwice(repo: Repository, visited: set<string>) {
    exists p, q :: p in visited && p != repo.checker && TwoSpellings(repo, p, q) && Reportable(repo, q)
  }

  lemma {:induction false} NoRepeatsIffOnce<T(!new)>(s: seq<T>)
    ensures NoRepeats(s) <==> forall x :: multiset(s)[x] <= 1
  {
    if s != [] {
      var init, last := s[..|s| - 1], s[|s| - 1];
      NoRepeatsIffOnce(init);
      assert s == init + [last];
      assert forall x :: multiset(s)[x] == multiset(init)[x] + if x == last then 1 else 0;
      assert last in init <==> multiset(init)[last] > 0;
      if NoRepeats(s) {
        assert NoRepeats(init);
        assert last !in init;
      }
      if forall x :: multiset(s)[x] <= 1 {
        assert forall x :: multiset(init)[x] <= multiset(s)[x];
        assert multiset(s)[last] <= 1;
        assert last !in init;
      }
    }
  }

  lemma TwoMembers(a: set<string>)
    ensures |a| > 1 <==> exists s, t :: s in a && t in a && s != t
  {
    if a != {} {
      var s :| s in a;
      var rest := a - {s};
      assert a == rest + {s};
      if rest != {} {
        var t :| t in rest;
        assert t in a && s != t;
      } else {
        assert forall t | t in a :: t == s;
      }
    }
  }

  predicate TwoSpellings(repo: Repository, p: string, q: string) {
    exists s, t | s in repo.spellings(p) && t in repo.spellings(p) :: s != t && repo.resolve(s) == q == repo.resolve(t)
  }

  lemma CountTwoSpellings(repo: Repository, p: string, q: string)
    ensures |Spelled(repo, repo.spellings(p), q)| > 1 <==> TwoSpellings(repo, p, q)
  {
    var spelled := Spelled(repo, repo.spellings(p), q);
    TwoMembers(spelled);
    if |spelled| > 1 {
      var s, t :| s in spelled && t in spelled && s != t;
      assert s in repo.spellings(p) && t in repo.spellings(p) && repo.resolve(s) == q == repo.resolve(t);
    }
    if TwoSpellings(repo, p, q) {
      var s, t :| s in repo.spellings(p) && t in repo.spellings(p) && s != t && repo.resolve(s) == q == repo.resolve(t);
      assert s in spelled && t in spelled;
    }
  }

  /** A report repeats exactly when a visited script spells one reportable path in two ways. */
  lemma RepeatsIffSpelledTwice(repo: Repository, visited: set<string>, missing: seq<(string, string)>)
    requires Reports(repo, visited, missing)
    ensures NoRepeats(missing) <==> !SpelledTwice(repo, visited)
  {
    NoRepeatsIffOnce(missing);
    if SpelledTwice(repo, visited) {
      var p, q :| p in visited && p != repo.checker && TwoSpellings(repo, p, q) && Reportable(repo, q);
      CountTwoSpellings(repo, p, q);
      assert multiset(missing)[(p, q)] > 1;
    } else {
      forall r ensures multiset(missing)[r] <= 1 {
        CountTwoSpellings(repo, r.0, r.1);
      }
    }
  }

  /** The smallest such repository: its entry spells a path that does not exist in two ways. */
  const GONE_TWICE := Repository(
    {"start"}, p => if p == "start" then {"gone", "a/../gone"} else {}, s => if s == "a/../gone" then "gone" else s,
    q => true, q => false, q => false, "checker")

  /** Its closure reports that path twice. */
  method ReportGoneTwice() returns (missing: seq<(string, string)>)
    ensures ("start", "gone") in missing && !NoRepeats(missing)
  {
    var visited;
    visited, missing := DependencyClosure(GONE_TWICE, ["start"]);
    EntryIsReachable(FollowedFrom(GONE_TWICE), ["start"], "start");
    assert "gone" in GONE_TWICE.spellings("start") && "a/../gone" in GONE_TWICE.spellings("start");
    assert TwoSpellings(GONE_TWICE, "start", "gone") && Reportable(GONE_TWICE, "gone");
    assert Broken(GONE_TWICE, "start", "gone");
  }

  // Python imports.

  /** What one import statement resolves to. */
  datatype Import = Local(path: string) | External | Ambiguous | Unresolved

  /** The modules a parsed file imports; none if it is missing or cannot be parsed. */
  datatype Sources = Sources(files: set<string>, imports: string -> Option<seq<Import>>)

  function Locals(imports: seq<Import>): set<string> {
    set i | i in imports && i.Local? :: i.path
  }

  function Imported(src: Sources, p: string): set<string> {
    if src.imports(p).None? then {} else Locals(src.imports(p).value)
  }

  function ImportedFrom(src: Sources): string -> set<string> {
    p => Imported(src, p)
  }

  predicate Sound(src: Sources, p: string) {
    && p in src.files && src.imports(p).Some?
    && forall i | i in src.imports(p).value :: !i.Ambiguous? && !i.Unresolved?
  }

  method ReadImports(imports: seq<Import>) returns (found: Option<seq<string>>)
    ensures found.Some? <==> forall i | i in imports :: !i.Ambiguous? && !i.Unresolved?
    ensures found.Some? ==> forall q :: q in found.value <==> q in Locals(imports)
  {
    var locals: seq<string> := [];
    for k := 0 to |imports|
      invariant forall i | i in imports[..k] :: !i.Ambiguous? && !i.Unresolved?
      invariant forall q :: q in locals <==> Local(q) in imports[..k]
    {
      assert imports[..k + 1] == imports[..k] + [imports[k]];
      match imports[k]
      case Local(path) => locals := locals + [path];
      case External =>
      case _ =>
        assert imports[k] in imports;
        return None;
    }
    assert imports[..|imports|] == imports;
    return Some(locals);
  }

  /** The import closure is what the seeds reach, and fails exactly when something they reach is not sound. */
  method PythonDependencies(src: Sources, seeds: seq<string>) returns (r: Option<set<string>>)
    ensures r.Some? ==> forall q :: q in r.value <==> Reachable(ImportedFrom(src), seeds, q)
    ensures r.None? <==> exists q :: Reachable(ImportedFrom(src), seeds, q) && !Sound(src, q)
  {
    ghost var next := ImportedFrom(src);
    var pending := seeds;
    var resolved: set<string> := {};
    ProgressStarts(next, seeds);
    while pending != []
      invariant forall p | p in resolved :: Sound(src, p)
      invariant Progress(next, seeds, resolved, pending)
      decreases src.files - resolved, |pending|
    {
      var path := pending[|pending| - 1];
      assert Reachable(next, seeds, path);
      if path in resolved {
        ProgressSkip(next, seeds, resolved, pending);
        pending := pending[..|pending| - 1];
        continue;
      }
      if path !in src.files || src.imports(path).None? {
        return None;
      }
      var found := ReadImports(src.imports(path).value);
      if found.None? {
        return None;
      }
      ProgressStep(next, seeds, resolved, pending, found.value);
      resolved := resolved + {path};
      pending := pending[..|pending| - 1] + found.value;
    }
    ProgressEnds(next, seeds, resolved);
    return Some(resolved);
  }
}
