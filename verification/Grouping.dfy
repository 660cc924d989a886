/** Evidence grouped by subject: the gate's report and the control report, two views of the same files. */
module Grouping {
  import opened Wrappers
  import opened Gate
  import Lexicographic
  import Sorting

  function SubjectsOf(e: Evidence, groupBy: By): seq<Name> {
    if groupBy == Control then e.controls else [e.drill]
  }

  function Copies(f: File, n: nat): (r: seq<File>)
    ensures |r| == n
  {
    if n == 0 then [] else Copies(f, n - 1) + [f]
  }

  function Mentions(subjects: seq<Name>, name: Name): nat {
    multiset(subjects)[name]
  }

  /** The runs that speak for a subject, in file order; a run that names it twice counts twice. */
  function RunsOf(files: seq<File>, groupBy: By, name: Name): seq<File> {
    if files == [] then []
    else
      var f := files[|files| - 1];
      RunsOf(files[..|files| - 1], groupBy, name) + Copies(f, Mentions(SubjectsOf(f.e, groupBy), name))
  }

  function Group<V>(groups: map<Name, seq<V>>, name: Name): seq<V> {
    if name in groups then groups[name] else []
  }

  /** The groups hold exactly the runs of each subject, and only subjects that have runs. */
  ghost predicate Grouped(groups: map<Name, seq<File>>, files: seq<File>, groupBy: By) {
    && (forall name :: Group(groups, name) == RunsOf(files, groupBy, name))
    && (forall name :: name in groups ==> groups[name] != [])
  }

  /** The runs of a subject when, of one more file, only some mentions have been added. */
  function Pending(files: seq<File>, groupBy: By, f: File, done: seq<Name>, name: Name): seq<File> {
    RunsOf(files, groupBy, name) + Copies(f, Mentions(done, name))
  }

  ghost predicate Between(groups: map<Name, seq<File>>, files: seq<File>, groupBy: By, f: File, done: seq<Name>) {
    && (forall name :: Group(groups, name) == Pending(files, groupBy, f, done, name))
    && (forall name :: name in groups ==> groups[name] != [])
  }

  method GroupFiles(files: seq<File>, groupBy: By) returns (groups: map<Name, seq<File>>)
    ensures Grouped(groups, files, groupBy)
    ensures forall name :: SpeakFor(Group(groups, name), files, groupBy, name)
    ensures groupBy == Drill ==> forall name :: Group(groups, name) == OfDrill(files, name)
    ensures forall name :: name in groups <==> Named(files, groupBy, name)
  {
    groups := map[];
    for i := 0 to |files|
      invariant Grouped(groups, files[..i], groupBy)
    {
      groups := AddFile(groups, files[..i], groupBy, files[i]);
      Sorting.TakeOneMore(files, i);
    }
    assert files[..|files|] == files;
    forall name
      ensures Group(groups, name) == RunsOf(files, groupBy, name)
      ensures SpeakFor(Group(groups, name), files, groupBy, name)
      ensures name in groups <==> Named(files, groupBy, name)
      ensures groupBy == Drill ==> Group(groups, name) == OfDrill(files, name)
    {
      RunsSpeakFor(files, groupBy, name);
      RunsByDrill(files, name);
    }
  }

  method AddFile(before: map<Name, seq<File>>, ghost files: seq<File>, groupBy: By, f: File)
    returns (groups: map<Name, seq<File>>)
    requires Grouped(before, files, groupBy)
    ensures Grouped(groups, files + [f], groupBy)
  {
    NoneAdded(before, files, groupBy, f);
    groups := AddMentions(before, files, groupBy, f, SubjectsOf(f.e, groupBy));
    AllAdded(groups, files, groupBy, f);
  }

  method AddMentions(before: map<Name, seq<File>>, ghost files: seq<File>, ghost groupBy: By, f: File,
                     subjects: seq<Name>)
    returns (groups: map<Name, seq<File>>)
    requires Between(before, files, groupBy, f, [])
    ensures Between(groups, files, groupBy, f, subjects)
  {
    groups := before;
    for j := 0 to |subjects|
      invariant Between(groups, files, groupBy, f, subjects[..j])
    {
      AddOne(groups, files, groupBy, f, subjects[..j], subjects[j]);
      Sorting.TakeOneMore(subjects, j);
      groups := groups[subjects[j] := Group(groups, subjects[j]) + [f]];
    }
    assert subjects[..|subjects|] == subjects;
  }

  lemma NoneAdded(groups: map<Name, seq<File>>, files: seq<File>, groupBy: By, f: File)
    requires Grouped(groups, files, groupBy)
    ensures Between(groups, files, groupBy, f, [])
  {
    forall name ensures Pending(files, groupBy, f, [], name) == RunsOf(files, groupBy, name) {
    }
  }

  lemma AddOne(groups: map<Name, seq<File>>, files: seq<File>, groupBy: By, f: File, done: seq<Name>, name: Name)
    requires Between(groups, files, groupBy, f, done)
    ensures Between(groups[name := Group(groups, name) + [f]], files, groupBy, f, done + [name])
  {
    var after := groups[name := Group(groups, name) + [f]];
    forall x ensures Group(after, x) == Pending(files, groupBy, f, done + [name], x) {
      assert Group(groups, x) == Pending(files, groupBy, f, done, x);
      MentionOne(files, groupBy, f, done, name, x);
      OneGrew(groups, name, f, x);
    }
  }

  lemma OneGrew<V>(groups: map<Name, seq<V>>, name: Name, v: V, x: Name)
    ensures Group(groups[name := Group(groups, name) + [v]], x) == Group(groups, x) + if x == name then [v] else []
  {
  }

  lemma MentionOne(files: seq<File>, groupBy: By, f: File, done: seq<Name>, name: Name, x: Name)
    ensures Pending(files, groupBy, f, done + [name], x) ==
      Pending(files, groupBy, f, done, x) + (if x == name then [f] else [])
  {
    assert Mentions(done + [name], x) == Mentions(done, x) + (if x == name then 1 else 0);
  }

  lemma AllAdded(groups: map<Name, seq<File>>, files: seq<File>, groupBy: By, f: File)
    requires Between(groups, files, groupBy, f, SubjectsOf(f.e, groupBy))
    ensures Grouped(groups, files + [f], groupBy)
  {
    assert (files + [f])[..|files|] == files;
    forall name
      ensures RunsOf(files + [f], groupBy, name) == Pending(files, groupBy, f, SubjectsOf(f.e, groupBy), name)
    {
    }
  }

  // ---- Who is judged by which runs

  /** The files of one drill, in their order. */
  function OfDrill(files: seq<File>, name: Name): seq<File> {
    if files == [] then []
    else
      var f := files[|files| - 1];
      OfDrill(files[..|files| - 1], name) + if f.e.drill == name then [f] else []
  }

  lemma OneDrill(f: File, name: Name)
    ensures Copies(f, Mentions(SubjectsOf(f.e, Drill), name)) == if f.e.drill == name then [f] else []
  {
    assert Copies(f, 1) == Copies(f, 0) + [f];
  }

  lemma {:induction false} RunsByDrill(files: seq<File>, name: Name)
    ensures RunsOf(files, Drill, name) == OfDrill(files, name)
  {
    if files != [] {
      RunsByDrill(files[..|files| - 1], name);
      OneDrill(files[|files| - 1], name);
    }
  }

  lemma {:induction false} CopiesCount(f: File, n: nat, x: File)
    ensures multiset(Copies(f, n))[x] == if x == f then n else 0
  {
    if n > 0 {
      CopiesCount(f, n - 1, x);
    }
  }

  lemma CountsAdd<T>(a: seq<T>, b: seq<T>, x: T)
    ensures multiset(a + b)[x] == multiset(a)[x] + multiset(b)[x]
  {
  }

  lemma CountOneMore(n: nat, one: nat, k: nat)
    requires one <= 1
    ensures (n + one) * k == n * k + if one == 1 then k else 0
  {
  }

  lemma ControlOneMore(init: seq<File>, last: File, name: Name, f: File)
    ensures multiset(RunsOf(init + [last], Control, name))[f] ==
      multiset(RunsOf(init, Control, name))[f] + if f == last then multiset(f.e.controls)[name] else 0
  {
    var copies := Copies(last, multiset(last.e.controls)[name]);
    assert (init + [last])[..|init|] == init;
    CopiesCount(last, multiset(last.e.controls)[name], f);
    CountsAdd(RunsOf(init, Control, name), copies, f);
  }

  /** By control, a file counts as often as it lists the control. */
  lemma {:induction false} RunsByControl(files: seq<File>, name: Name, f: File)
    ensures multiset(RunsOf(files, Control, name))[f] == multiset(files)[f] * multiset(f.e.controls)[name]
  {
    if files != [] {
      var init, last := files[..|files| - 1], files[|files| - 1];
      assert files == init + [last];
      RunsByControl(init, name, f);
      ControlOneMore(init, last, name, f);
      CountsAdd(init, [last], f);
      CountOneMore(multiset(init)[f], multiset([last])[f], multiset(f.e.controls)[name]);
    }
  }

  /** In these runs, and no others, a subject is named: by its drill, or as often as the file lists the control. */
  ghost predicate SpeakFor(runs: seq<File>, files: seq<File>, groupBy: By, name: Name) {
    if groupBy == Drill then multiset(runs) == multiset(OfDrill(files, name))
    else forall f :: multiset(runs)[f] == multiset(files)[f] * multiset(f.e.controls)[name]
  }

  predicate Names(f: File, groupBy: By, name: Name) {
    if groupBy == Drill then f.e.drill == name else name in f.e.controls
  }

  predicate Named(files: seq<File>, groupBy: By, name: Name) {
    exists f <- files :: Names(f, groupBy, name)
  }

  lemma NamedOneMore(init: seq<File>, last: File, groupBy: By, name: Name)
    ensures Named(init + [last], groupBy, name) <==> Named(init, groupBy, name) || Names(last, groupBy, name)
  {
    assert forall f :: f in init + [last] <==> f in init || f == last;
  }

  lemma NamesIsMention(f: File, groupBy: By, name: Name)
    ensures Names(f, groupBy, name) <==> Mentions(SubjectsOf(f.e, groupBy), name) > 0
    ensures Names(f, groupBy, name) <==> name in SubjectsOf(f.e, groupBy)
  {
    var subjects := SubjectsOf(f.e, groupBy);
    assert name in subjects <==> name in multiset(subjects);
  }

  lemma {:induction false} NamedHaveRuns(files: seq<File>, groupBy: By, name: Name)
    ensures RunsOf(files, groupBy, name) != [] <==> Named(files, groupBy, name)
  {
    if files != [] {
      var init, last := files[..|files| - 1], files[|files| - 1];
      assert files == init + [last];
      NamedHaveRuns(init, groupBy, name);
      NamedOneMore(init, last, groupBy, name);
      NamesIsMention(last, groupBy, name);
    }
  }

  lemma RunsSpeakFor(files: seq<File>, groupBy: By, name: Name)
    ensures SpeakFor(RunsOf(files, groupBy, name), files, groupBy, name)
    ensures RunsOf(files, groupBy, name) != [] <==> Named(files, groupBy, name)
  {
    NamedHaveRuns(files, groupBy, name);
    RunsByDrill(files, name);
    forall f {
      RunsByControl(files, name, f);
    }
  }

  // ---- The gate's report

  datatype Report = Report(subjects: seq<Status>, violations: nat)

  function Failing(subjects: seq<Status>): nat {
    if subjects == [] then 0
    else Failing(subjects[..|subjects| - 1]) + (if subjects[|subjects| - 1].Ok() then 0 else 1)
  }

  /** The status of a subject follows from the runs that name it, in some order that sorting may leave. */
  ghost predicate Judged(st: Status, name: Name, files: seq<File>, opts: Options, now: Time, signed: File -> bool) {
    exists s :: Sorting.Sorted(s, NewerFirst) && SpeakFor(s, files, opts.groupBy, name)
      && st == Judge(name, s, opts, now, signed)
  }

  lemma SameSpeakFor(runs: seq<File>, files: seq<File>, groupBy: By, name: Name)
    ensures SpeakFor(runs, files, groupBy, name) <==> multiset(runs) == multiset(RunsOf(files, groupBy, name))
  {
    RunsSpeakFor(files, groupBy, name);
    if groupBy == Control && SpeakFor(runs, files, groupBy, name) {
      assert forall f :: multiset(runs)[f] == multiset(RunsOf(files, groupBy, name))[f];
    }
  }

  /** What the report says when these names are asked for, in this order. */
  ghost predicate ReportOn(rep: Report, names: seq<Name>, files: seq<File>, opts: Options, now: Time,
                           signed: File -> bool) {
    && |rep.subjects| == |names|
    && (forall k :: 0 <= k < |names| ==> Judged(rep.subjects[k], names[k], files, opts, now, signed))
    && rep.violations == Failing(rep.subjects)
  }

  ghost predicate NoRepeats(names: seq<Name>) {
    forall name :: multiset(names)[name] <= 1
  }

  predicate InOrder(a: Name, b: Name) {
    Lexicographic.AtMost(a.text, b.text)
  }

  /** The subjects the files themselves mention, each once. */
  ghost predicate Present(names: seq<Name>, files: seq<File>, groupBy: By) {
    && NoRepeats(names)
    && forall name :: name in names <==> Named(files, groupBy, name)
  }

  /** Judging sorts a group where it lies, which loses no run. */
  ghost predicate SameRuns(groups: map<Name, seq<File>>, files: seq<File>, groupBy: By) {
    forall name :: multiset(Group(groups, name)) == multiset(RunsOf(files, groupBy, name))
  }

  method KeysOf<V>(m: map<Name, V>) returns (keys: seq<Name>)
    ensures NoRepeats(keys) && forall name :: name in keys <==> name in m
  {
    keys := [];
    var left := m.Keys;
    while left != {}
      invariant left <= m.Keys && NoRepeats(keys)
      invariant forall name :: name in keys <==> name in m.Keys - left
      decreases |left|
    {
      var name :| name in left;
      assert multiset(keys + [name]) == multiset(keys) + multiset{name};
      assert multiset(keys)[name] == 0 by {
        assert name !in keys;
      }
      keys := keys + [name];
      left := left - {name};
    }
  }

  /** The subjects to report on: the caller's own array, else the subjects found, sorted where they are. */
  method SortedNames(groups: map<Name, seq<File>>, subjects: array<Name>) returns (names: array<Name>)
    modifies subjects
    ensures Sorting.SortOf(subjects[..], old(subjects[..]), InOrder)
    ensures Sorting.Sorted(names[..], InOrder)
    ensures if subjects.Length != 0 then names == subjects
            else NoRepeats(names[..]) && forall name :: name in names[..] <==> name in groups
  {
    Lexicographic.TotalAtMost();
    assert Sorting.TotalOrder(InOrder);
    names := subjects;
    if names.Length == 0 {
      var found := KeysOf(groups);
      names := new Name[|found|](i requires 0 <= i < |found| => found[i]);
      assert names[..] == found;
    }
    ghost var unsorted := names[..];
    Sorting.Sort(names, InOrder);
    Sorting.SameElements(names[..], unsorted);
  }

  method JudgeAll(grouped: map<Name, seq<File>>, names: seq<Name>, ghost files: seq<File>, opts: Options, now: Time,
                  signed: File -> bool)
    returns (rep: Report)
    requires Grouped(grouped, files, opts.groupBy)
    ensures ReportOn(rep, names, files, opts, now, signed)
  {
    var groups := grouped;
    rep := Report([], 0);
    for i := 0 to |names|
      invariant ReportOn(rep, names[..i], files, opts, now, signed)
      invariant SameRuns(groups, files, opts.groupBy)
    {
      var group := Group(groups, names[i]);
      var st, runs := JudgeGroup(group, names[i], files, opts, now, signed);
      Rearranged(groups, files, opts.groupBy, names[i], runs);
      OneMore(rep, names[..i], files, opts, now, signed, st, names[i]);
      groups := if names[i] in groups then groups[names[i] := runs] else groups;
      rep := Report(rep.subjects + [st], rep.violations + (if st.Ok() then 0 else 1));
      Sorting.TakeOneMore(names, i);
    }
    assert names[..|names|] == names;
  }

  lemma Rearranged(groups: map<Name, seq<File>>, files: seq<File>, groupBy: By, name: Name, runs: seq<File>)
    requires SameRuns(groups, files, groupBy) && multiset(runs) == multiset(Group(groups, name))
    ensures SameRuns(if name in groups then groups[name := runs] else groups, files, groupBy)
  {
  }

  lemma OneMore(rep: Report, names: seq<Name>, files: seq<File>, opts: Options, now: Time, signed: File -> bool,
                st: Status, name: Name)
    requires ReportOn(rep, names, files, opts, now, signed) && Judged(st, name, files, opts, now, signed)
    ensures ReportOn(Report(rep.subjects + [st], rep.violations + (if st.Ok() then 0 else 1)), names + [name],
                     files, opts, now, signed)
  {
    var subjects := rep.subjects + [st];
    assert subjects[..|rep.subjects|] == rep.subjects;
    forall k | 0 <= k < |subjects| ensures Judged(subjects[k], (names + [name])[k], files, opts, now, signed) {
      if k < |names| {
        assert Judged(rep.subjects[k], names[k], files, opts, now, signed);
      }
    }
  }

  method JudgeGroup(group: seq<File>, name: Name, ghost files: seq<File>, opts: Options, now: Time,
                    signed: File -> bool)
    returns (st: Status, runs: seq<File>)
    requires multiset(group) == multiset(RunsOf(files, opts.groupBy, name))
    ensures Judged(st, name, files, opts, now, signed) && multiset(runs) == multiset(group)
  {
    var a := new File[|group|](k requires 0 <= k < |group| => group[k]);
    assert a[..] == group;
    st := Evaluate(name, a, opts, now, signed);
    runs := a[..];
    SameSpeakFor(runs, files, opts.groupBy, name);
  }

  /** The gate over scanned files. The required subjects are sorted in place, in the caller's array; without any,
      the subjects found are reported. */
  method RunGate(files: seq<File>, subjects: array<Name>, opts: Options, now: Time, signed: File -> bool)
    returns (rep: Report, ghost asked: seq<Name>)
    modifies subjects
    ensures ReportOn(rep, asked, files, opts, now, signed)
    ensures Sorting.Sorted(asked, InOrder)
    ensures Sorting.SortOf(subjects[..], old(subjects[..]), InOrder)
    ensures if subjects.Length != 0 then asked == subjects[..] else Present(asked, files, opts.groupBy)
  {
    var groups := GroupFiles(files, opts.groupBy);
    var names := SortedNames(groups, subjects);
    asked := names[..];
    rep := JudgeAll(groups, names[..], files, opts, now, signed);
  }

  lemma NamesAreNotTied()
    ensures forall x: Name, y: Name :: InOrder(x, y) && InOrder(y, x) ==> x == y
  {
    forall x: Name, y: Name | InOrder(x, y) && InOrder(y, x) ensures x == y {
      Lexicographic.Antisymmetric(x.text, y.text);
    }
  }

  lemma OnceOrNot(names: seq<Name>, name: Name)
    requires NoRepeats(names)
    ensures multiset(names)[name] == if name in names then 1 else 0
  {
    assert name in names <==> name in multiset(names);
  }

  /** What is reported, and in which order, is determined: by the files when no subjects are required, and by the
      required subjects otherwise. Neither the map's order nor the sort's matters. */
  lemma SubjectsAreDetermined(asked1: seq<Name>, asked2: seq<Name>, files: seq<File>, groupBy: By)
    requires Sorting.Sorted(asked1, InOrder) && Sorting.Sorted(asked2, InOrder)
    requires (Present(asked1, files, groupBy) && Present(asked2, files, groupBy))
      || multiset(asked1) == multiset(asked2)
    ensures asked1 == asked2
  {
    NamesAreNotTied();
    if Present(asked1, files, groupBy) && Present(asked2, files, groupBy) {
      forall name ensures multiset(asked1)[name] == multiset(asked2)[name] {
        OnceOrNot(asked1, name);
        OnceOrNot(asked2, name);
        assert name in asked1 <==> Named(files, groupBy, name);
        assert name in asked2 <==> Named(files, groupBy, name);
      }
      assert multiset(asked1) == multiset(asked2);
    }
    Sorting.SortIsUnique(asked1, asked2, InOrder);
  }

  // ---- Nothing is lost and nothing is counted twice

  function Runs(subjects: seq<Status>): nat {
    if subjects == [] then 0 else Runs(subjects[..|subjects| - 1]) + subjects[|subjects| - 1].runs
  }

  function RunsTotal(files: seq<File>, groupBy: By, names: seq<Name>): nat {
    if names == [] then 0
    else RunsTotal(files, groupBy, names[..|names| - 1]) + |RunsOf(files, groupBy, names[|names| - 1])|
  }

  /** How many subjects the files name: one drill each, or all their controls. */
  function Subjects(files: seq<File>, groupBy: By): nat {
    if files == [] then 0
    else Subjects(files[..|files| - 1], groupBy) + (if groupBy == Drill then 1 else |files[|files| - 1].e.controls|)
  }

  function MentionsTotal(subjects: seq<Name>, names: seq<Name>): nat {
    if names == [] then 0 else MentionsTotal(subjects, names[..|names| - 1]) + Mentions(subjects, names[|names| - 1])
  }

  lemma {:induction false} MentionOneMore(subjects: seq<Name>, name: Name, names: seq<Name>)
    ensures MentionsTotal(subjects + [name], names) == MentionsTotal(subjects, names) + multiset(names)[name]
  {
    if names != [] {
      var init, last := names[..|names| - 1], names[|names| - 1];
      assert names == init + [last];
      MentionOneMore(subjects, name, init);
    }
  }

  lemma {:induction false} NoMentions(names: seq<Name>)
    ensures MentionsTotal([], names) == 0
  {
    if names != [] {
      NoMentions(names[..|names| - 1]);
    }
  }

  lemma {:induction false} EveryMentionCounts(subjects: seq<Name>, names: seq<Name>)
    requires NoRepeats(names) && forall x <- subjects :: x in names
    ensures MentionsTotal(subjects, names) == |subjects|
  {
    if subjects == [] {
      NoMentions(names);
    } else {
      var init, last := subjects[..|subjects| - 1], subjects[|subjects| - 1];
      assert subjects == init + [last];
      EveryMentionCounts(init, names);
      MentionOneMore(init, last, names);
      assert last in subjects && last in names;
    }
  }

  lemma {:induction false} RunsOneMore(files: seq<File>, f: File, groupBy: By, names: seq<Name>)
    ensures RunsTotal(files + [f], groupBy, names) ==
      RunsTotal(files, groupBy, names) + MentionsTotal(SubjectsOf(f.e, groupBy), names)
  {
    assert (files + [f])[..|files|] == files;
    if names != [] {
      RunsOneMore(files, f, groupBy, names[..|names| - 1]);
    }
  }

  lemma {:induction false} NoRuns(groupBy: By, names: seq<Name>)
    ensures RunsTotal([], groupBy, names) == 0
  {
    if names != [] {
      NoRuns(groupBy, names[..|names| - 1]);
    }
  }

  /** Over names that cover the files, without repeats, the runs counted are the subjects the files mention. */
  lemma {:induction false} RunsAddUp(files: seq<File>, groupBy: By, names: seq<Name>)
    requires NoRepeats(names) && forall name :: Named(files, groupBy, name) ==> name in names
    ensures RunsTotal(files, groupBy, names) == Subjects(files, groupBy)
  {
    if files == [] {
      NoRuns(groupBy, names);
    } else {
      var init, last := files[..|files| - 1], files[|files| - 1];
      assert files == init + [last];
      forall name
        ensures Named(init, groupBy, name) || name in SubjectsOf(last.e, groupBy) ==> name in names
      {
        NamedOneMore(init, last, groupBy, name);
        NamesIsMention(last, groupBy, name);
      }
      RunsAddUp(init, groupBy, names);
      RunsOneMore(init, last, groupBy, names);
      EveryMentionCounts(SubjectsOf(last.e, groupBy), names);
    }
  }

  lemma {:induction false} StatusesCountRuns(subjects: seq<Status>, names: seq<Name>, files: seq<File>, opts: Options,
                                             now: Time, signed: File -> bool)
    requires ReportOn(Report(subjects, Failing(subjects)), names, files, opts, now, signed)
    ensures Runs(subjects) == RunsTotal(files, opts.groupBy, names)
  {
    if names != [] {
      var k := |names| - 1;
      StatusesCountRuns(subjects[..k], names[..k], files, opts, now, signed);
      assert Judged(subjects[k], names[k], files, opts, now, signed);
      var s :| Sorting.Sorted(s, NewerFirst) && SpeakFor(s, files, opts.groupBy, names[k])
        && subjects[k] == Judge(names[k], s, opts, now, signed);
      SameSpeakFor(s, files, opts.groupBy, names[k]);
      Sorting.SameElements(s, RunsOf(files, opts.groupBy, names[k]));
    }
  }

  lemma {:induction false} OneDrillEach(files: seq<File>)
    ensures Subjects(files, Drill) == |files|
  {
    if files != [] {
      OneDrillEach(files[..|files| - 1]);
    }
  }

  /** A report on the subjects found counts every mention of a subject once; by drill, every file once. */
  lemma ReportCountsEveryFile(rep: Report, names: seq<Name>, files: seq<File>, opts: Options, now: Time,
                              signed: File -> bool)
    requires ReportOn(rep, names, files, opts, now, signed) && Present(names, files, opts.groupBy)
    ensures Runs(rep.subjects) == Subjects(files, opts.groupBy)
    ensures opts.groupBy == Drill ==> Runs(rep.subjects) == |files|
  {
    StatusesCountRuns(rep.subjects, names, files, opts, now, signed);
    RunsAddUp(files, opts.groupBy, names);
    OneDrillEach(files);
  }

  function FailingAt(subjects: seq<Status>): set<nat> {
    set k: nat | k < |subjects| && subjects[k].violations != []
  }

  /** The report's number of violations is the number of its subjects that have any. */
  lemma {:induction false} ViolationsCountSubjects(subjects: seq<Status>)
    ensures Failing(subjects) == |FailingAt(subjects)|
  {
    if subjects != [] {
      var k: nat := |subjects| - 1;
      ViolationsCountSubjects(subjects[..k]);
      assert k !in FailingAt(subjects[..k]);
      assert FailingAt(subjects) == FailingAt(subjects[..k]) + if subjects[k].Ok() then {} else {k};
    }
  }

  /** A drill that stopped running is not passed over: a required name without evidence is a violation. */
  lemma {:induction false} MissingSubjectIsReported(rep: Report, names: seq<Name>, files: seq<File>, opts: Options,
                                                    now: Time,
                                                    signed: File -> bool, name: Name)
    requires ReportOn(rep, names, files, opts, now, signed)
    requires name in names && !Named(files, opts.groupBy, name)
    ensures rep.violations > 0
    ensures exists st <- rep.subjects :: st == Status(name, 0, None, None, false, [NoEvidence], "")
  {
    NamedHaveRuns(files, opts.groupBy, name);
    var k :| 0 <= k < |names| && names[k] == name;
    assert Judged(rep.subjects[k], name, files, opts, now, signed);
    var s :| Sorting.Sorted(s, NewerFirst) && SpeakFor(s, files, opts.groupBy, name)
      && rep.subjects[k] == Judge(name, s, opts, now, signed);
    SameSpeakFor(s, files, opts.groupBy, name);
    Sorting.SameElements(s, []);
    assert rep.subjects[k] in rep.subjects;
    FailingCounts(rep.subjects, k);
  }

  lemma {:induction false} FailingCounts(subjects: seq<Status>, k: nat)
    requires k < |subjects| && !subjects[k].Ok()
    ensures Failing(subjects) > 0
  {
    if k < |subjects| - 1 {
      FailingCounts(subjects[..|subjects| - 1], k);
    }
  }
}
