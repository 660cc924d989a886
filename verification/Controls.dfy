/** The control report: the runs that evidence each compliance control, as an auditor reads them. */
module Controls {
  import opened Wrappers
  import opened Gate
  import opened Grouping
  import Sorting

  datatype Entry = Entry(drill: Name, finishedAt: Time, verified: bool, restoreSeconds: real, rtoMet: bool,
                         rpoMet: bool,
                         evidenceFile: string, signed: bool)

  /** How an evidence file is listed: by its base name, and signed if some signature beside it validates. */
  datatype Listing = Listing(base: string -> string, signed: File -> bool)

  function EntryOf(l: Listing, f: File): Entry {
    var m := f.e.measured;
    Entry(f.e.drill, f.e.finishedAt, f.e.verified, m.restoreSeconds, m.rtoMet, m.rpoMet, l.base(f.path), l.signed(f))
  }

  function Entries(l: Listing, runs: seq<File>): seq<Entry> {
    seq(|runs|, i requires 0 <= i < |runs| => EntryOf(l, runs[i]))
  }

  predicate EntryNewer(a: Entry, b: Entry) {
    a.finishedAt >= b.finishedAt
  }

  function Silent(files: seq<File>): nat {
    if files == [] then 0
    else Silent(files[..|files| - 1]) + (if files[|files| - 1].e.controls == [] then 1 else 0)
  }

  ghost predicate Listed(controls: map<Name, seq<Entry>>, l: Listing, files: seq<File>) {
    && (forall c :: Group(controls, c) == Entries(l, RunsOf(files, Control, c)))
    && (forall c :: c in controls ==> controls[c] != [])
  }

  ghost predicate ListedPart(controls: map<Name, seq<Entry>>, l: Listing, files: seq<File>, f: File, done: seq<Name>) {
    && (forall c :: Group(controls, c) == Entries(l, Pending(files, Control, f, done, c)))
    && (forall c :: c in controls ==> controls[c] != [])
  }

  /** The finished report: every control's entries are its runs, newest first. */
  ghost predicate Attributes(controls: map<Name, seq<Entry>>, l: Listing, files: seq<File>) {
    && (forall c :: c in controls <==> RunsOf(files, Control, c) != [])
    && (forall c :: c in controls ==> Sorting.SortOf(controls[c], Entries(l, RunsOf(files, Control, c)), EntryNewer))
  }

  method BuildControlReport(files: seq<File>, l: Listing) returns (controls: map<Name, seq<Entry>>, unattributed: nat)
    ensures Attributes(controls, l, files)
    ensures unattributed == Silent(files)
  {
    controls, unattributed := map[], 0;
    for i := 0 to |files|
      invariant Listed(controls, l, files[..i])
      invariant unattributed == Silent(files[..i])
    {
      Sorting.TakeOneMore(files, i);
      if files[i].e.controls == [] {
        unattributed := unattributed + 1;
        SilentFile(controls, l, files[..i], files[i]);
        continue;
      }
      controls := AddEntry(controls, files[..i], files[i], l);
    }
    assert files[..|files|] == files;
    controls := SortEach(controls, l, files);
  }

  lemma SilentFile(controls: map<Name, seq<Entry>>, l: Listing, files: seq<File>, f: File)
    requires Listed(controls, l, files) && f.e.controls == []
    ensures Listed(controls, l, files + [f])
  {
    assert (files + [f])[..|files|] == files;
    forall c ensures RunsOf(files + [f], Control, c) == RunsOf(files, Control, c) {
    }
  }

  method AddEntry(before: map<Name, seq<Entry>>, ghost files: seq<File>, f: File, l: Listing)
    returns (controls: map<Name, seq<Entry>>)
    requires Listed(before, l, files)
    ensures Listed(controls, l, files + [f])
  {
    StartFile(before, l, files, f);
    controls := AddMentions(before, files, f, l, f.e.controls);
    EndFile(controls, l, files, f);
  }

  method AddMentions(before: map<Name, seq<Entry>>, ghost files: seq<File>, f: File, l: Listing, named: seq<Name>)
    returns (controls: map<Name, seq<Entry>>)
    requires ListedPart(before, l, files, f, [])
    ensures ListedPart(controls, l, files, f, named)
  {
    controls := before;
    var entry := EntryOf(l, f);
    for j := 0 to |named|
      invariant ListedPart(controls, l, files, f, named[..j])
    {
      NameOne(controls, l, files, f, named[..j], named[j]);
      Sorting.TakeOneMore(named, j);
      controls := controls[named[j] := Group(controls, named[j]) + [entry]];
    }
    assert named[..|named|] == named;
  }

  lemma StartFile(controls: map<Name, seq<Entry>>, l: Listing, files: seq<File>, f: File)
    requires Listed(controls, l, files)
    ensures ListedPart(controls, l, files, f, [])
  {
    forall c ensures Pending(files, Control, f, [], c) == RunsOf(files, Control, c) {
    }
  }

  lemma {:induction false} NameOne(controls: map<Name, seq<Entry>>, l: Listing, files: seq<File>, f: File,
                                   done: seq<Name>, c: Name)
    requires ListedPart(controls, l, files, f, done)
    ensures ListedPart(controls[c := Group(controls, c) + [EntryOf(l, f)]], l, files, f, done + [c])
  {
    var after := controls[c := Group(controls, c) + [EntryOf(l, f)]];
    forall x ensures Group(after, x) == Entries(l, Pending(files, Control, f, done + [c], x)) {
      MentionOne(files, Control, f, done, c, x);
      OneEntryMore(l, Pending(files, Control, f, done, x), f);
      assert Group(controls, x) == Entries(l, Pending(files, Control, f, done, x));
    }
  }

  lemma OneEntryMore(l: Listing, runs: seq<File>, f: File)
    ensures Entries(l, runs + [f]) == Entries(l, runs) + [EntryOf(l, f)]
    ensures runs + [] == runs
  {
  }

  lemma EndFile(controls: map<Name, seq<Entry>>, l: Listing, files: seq<File>, f: File)
    requires ListedPart(controls, l, files, f, f.e.controls)
    ensures Listed(controls, l, files + [f])
  {
    assert (files + [f])[..|files|] == files;
    forall c ensures RunsOf(files + [f], Control, c) == Pending(files, Control, f, f.e.controls, c) {
    }
  }

  method SortEach(before: map<Name, seq<Entry>>, ghost l: Listing, ghost files: seq<File>)
    returns (controls: map<Name, seq<Entry>>)
    requires Listed(before, l, files)
    ensures Attributes(controls, l, files)
  {
    controls := before;
    var left := before.Keys;
    while left != {}
      invariant controls.Keys == before.Keys && left <= before.Keys
      invariant forall c <- left :: controls[c] == before[c]
      invariant forall c <- before.Keys - left :: Sorting.SortOf(controls[c], before[c], EntryNewer)
      decreases |left|
    {
      var c :| c in left;
      left := left - {c};
      var entries := new Entry[|controls[c]|](k requires 0 <= k < |controls[c]| => controls[c][k]);
      assert entries[..] == before[c];
      Sorting.Sort(entries, EntryNewer);
      controls := controls[c := entries[..]];
    }
    forall c ensures c in before <==> RunsOf(files, Control, c) != [] {
      assert Group(before, c) == Entries(l, RunsOf(files, Control, c));
    }
  }

  // ---- What an entry says

  /** One run as an auditor reads it, field by field. */
  predicate Lists(x: Entry, f: File, l: Listing) {
    && x.drill == f.e.drill && x.finishedAt == f.e.finishedAt && x.verified == f.e.verified
    && x.restoreSeconds == f.e.measured.restoreSeconds
    && x.rtoMet == f.e.measured.rtoMet && x.rpoMet == f.e.measured.rpoMet
    && x.evidenceFile == l.base(f.path) && x.signed == l.signed(f)
  }

  function Without<T>(s: seq<T>, k: nat): seq<T>
    requires k < |s|
  {
    s[..k] + s[k + 1..]
  }

  lemma WithoutOne<T>(init: seq<T>, last: T, s: seq<T>, k: nat)
    requires k < |s| && s[k] == last
    ensures multiset(init + [last]) == multiset(s) <==> multiset(init) == multiset(Without(s, k))
  {
    assert s == s[..k] + ([s[k]] + s[k + 1..]);
    assert multiset(s) == multiset(Without(s, k)) + multiset{last};
    assert multiset(init + [last]) == multiset(init) + multiset{last};
    assert multiset(init) == multiset(init + [last]) - multiset{last};
    assert multiset(Without(s, k)) == multiset(s) - multiset{last};
  }

  lemma EntriesWithout(l: Listing, runs: seq<File>, k: nat)
    requires k < |runs|
    ensures Entries(l, Without(runs, k)) == Without(Entries(l, runs), k)
  {
  }

  /** Entries in another order are the entries of the runs in another order. */
  lemma {:induction false} ArrangedRuns(entries: seq<Entry>, l: Listing, runs: seq<File>) returns (arranged: seq<File>)
    requires multiset(entries) == multiset(Entries(l, runs))
    ensures multiset(arranged) == multiset(runs) && entries == Entries(l, arranged)
    decreases |entries|, 0
  {
    Sorting.SameElements(entries, Entries(l, runs));
    if entries == [] {
      arranged := [];
    } else {
      var last := entries[|entries| - 1];
      assert last in entries;
      var k: nat :| k < |Entries(l, runs)| && Entries(l, runs)[k] == last;
      assert entries == entries[..|entries| - 1] + [last];
      arranged := ArrangedButOne(entries[..|entries| - 1], last, l, runs, k);
    }
  }

  lemma {:induction false} ArrangedButOne(init: seq<Entry>, last: Entry, l: Listing, runs: seq<File>, k: nat)
    returns (arranged: seq<File>)
    requires k < |runs| && EntryOf(l, runs[k]) == last && multiset(init + [last]) == multiset(Entries(l, runs))
    ensures multiset(arranged) == multiset(runs) && init + [last] == Entries(l, arranged)
    decreases |init|, 1
  {
    WithoutOne(init, last, Entries(l, runs), k);
    EntriesWithout(l, runs, k);
    arranged := ArrangedRuns(init, l, Without(runs, k));
    WithoutOne(arranged, runs[k], runs, k);
    OneEntryMore(l, arranged, runs[k]);
    arranged := arranged + [runs[k]];
  }

  /** The entries of a control are, one for one and newest first, the runs that declare it, each as often as it does,
      and say of each what its evidence says. */
  lemma EntriesTell(controls: map<Name, seq<Entry>>, l: Listing, files: seq<File>, c: Name) returns (runs: seq<File>)
    requires Attributes(controls, l, files)
    ensures c in controls <==> exists f <- files :: c in f.e.controls
    ensures forall f :: multiset(runs)[f] == multiset(files)[f] * multiset(f.e.controls)[c]
    ensures |Group(controls, c)| == |runs|
    ensures forall i :: 0 <= i < |runs| ==> Lists(Group(controls, c)[i], runs[i], l)
    ensures forall i, j :: 0 <= i < j < |runs| ==> runs[i].e.finishedAt >= runs[j].e.finishedAt
  {
    NamedHaveRuns(files, Control, c);
    assert c !in controls ==> Entries(l, RunsOf(files, Control, c)) == [];
    runs := ArrangedRuns(Group(controls, c), l, RunsOf(files, Control, c));
    SameSpeakFor(runs, files, Control, c);
    assert forall i :: 0 <= i < |runs| ==> Group(controls, c)[i] == EntryOf(l, runs[i]);
    assert Sorting.Sorted(Group(controls, c), EntryNewer);
  }

  // ---- The two views of the same evidence agree

  function FirstVerifiedEntry(entries: seq<Entry>): Option<Time> {
    if entries == [] then None
    else if entries[0].verified then Some(entries[0].finishedAt) else FirstVerifiedEntry(entries[1..])
  }

  ghost predicate LastVerifiedAt(entries: seq<Entry>, t: Option<Time>) {
    match t
    case None => forall x <- entries :: !x.verified
    case Some(at) => (exists x <- entries :: x.verified && x.finishedAt == at) &&
                     (forall x <- entries :: x.verified ==> x.finishedAt <= at)
  }

  lemma {:induction false} FirstIsLast(entries: seq<Entry>)
    requires Sorting.Sorted(entries, EntryNewer)
    ensures LastVerifiedAt(entries, FirstVerifiedEntry(entries))
  {
    if entries != [] && !entries[0].verified {
      assert forall i, j :: 0 <= i < j < |entries[1..]| ==>
        entries[1..][i] == entries[i + 1] && entries[1..][j] == entries[j + 1];
      FirstIsLast(entries[1..]);
      assert forall x <- entries :: x == entries[0] || x in entries[1..];
      assert forall x <- entries[1..] :: x in entries;
    }
  }

  /** For every control and in every order sorting may leave, the gate and the control report count the same
      runs, and agree on the last run and on the last verified one. */
  lemma {:induction false} ViewsAgree(controls: map<Name, seq<Entry>>, l: Listing, files: seq<File>, st: Status,
                                      c: Name, opts: Options,
                   now: Time, signed: File -> bool)
    requires Attributes(controls, l, files) && opts.groupBy == Control && Judged(st, c, files, opts, now, signed)
    ensures st.runs == |Group(controls, c)|
    ensures c in controls <==> st.lastRun.Some?
    ensures c in controls ==> st.lastRun == Some(controls[c][0].finishedAt)
    ensures st.lastVerified == FirstVerifiedEntry(Group(controls, c))
  {
    var runs := RunsOf(files, Control, c);
    var s :| Sorting.Sorted(s, NewerFirst) && SpeakFor(s, files, Control, c) && st == Judge(c, s, opts, now, signed);
    SameSpeakFor(s, files, Control, c);
    Sorting.SameElements(s, runs);
    if runs != [] {
      SortedRunsLead(runs, s);
      Sorting.SameElements(controls[c], Entries(l, runs));
      FirstIsNewest(controls[c], l, runs, s[0]);
      LastVerifiedAgrees(controls[c], l, runs, FirstVerified(s));
    }
  }

  /** The entries are those of the runs, and no others. */
  lemma {:induction false} EntriesAreRuns(entries: seq<Entry>, l: Listing, runs: seq<File>)
    requires forall x :: x in entries <==> x in Entries(l, runs)
    ensures forall r <- runs :: EntryOf(l, r) in entries
    ensures forall x <- entries :: exists r <- runs :: x == EntryOf(l, r)
  {
    forall r | r in runs ensures EntryOf(l, r) in entries {
      var k :| 0 <= k < |runs| && runs[k] == r;
      assert Entries(l, runs)[k] == EntryOf(l, r);
    }
    forall x | x in entries ensures exists r <- runs :: x == EntryOf(l, r) {
      var k :| 0 <= k < |runs| && Entries(l, runs)[k] == x;
      assert runs[k] in runs;
    }
  }

  lemma {:induction false} FirstIsNewest(entries: seq<Entry>, l: Listing, runs: seq<File>, latest: File)
    requires Newest(runs, latest)
    requires entries != [] && Sorting.Sorted(entries, EntryNewer) && forall x :: x in entries <==> x in Entries(l, runs)
    ensures entries[0].finishedAt == latest.e.finishedAt
  {
    EntriesAreRuns(entries, l, runs);
    assert EntryOf(l, latest) in entries && entries[0] in entries;
    assert forall x <- entries :: x == entries[0] || EntryNewer(entries[0], x);
  }

  lemma {:induction false} LastVerifiedAgrees(entries: seq<Entry>, l: Listing, runs: seq<File>, verified: Option<File>)
    requires match verified case Some(v) => NewestVerified(runs, v) case None => !AnyVerified(runs)
    requires Sorting.Sorted(entries, EntryNewer) && forall x :: x in entries <==> x in Entries(l, runs)
    ensures FirstVerifiedEntry(entries) == if verified.Some? then Some(verified.value.e.finishedAt) else None
  {
    FirstIsLast(entries);
    EntriesAreRuns(entries, l, runs);
    if verified.Some? {
      assert EntryOf(l, verified.value) in entries;
    }
  }
}
