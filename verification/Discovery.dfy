/** Picking the newest backup out of a listing. */
module Discovery {
  import opened Wrappers

  type Time = int

  /** More objects than this under one prefix is an error. */
  const MAX_LIST_KEYS := 10000

  datatype Object = Object(key: string, size: int, modified: Time)

  /** One answer of the paginated listing. */
  datatype Page = Page(contents: seq<Object>) | FailedPage

  datatype Outcome = Found(key: string) | ListingFailed | TooMany | NoMatch

  predicate EndsInSlash(key: string) {
    |key| > 0 && key[|key| - 1] == '/'
  }

  /** An object worth restoring from. `matches` is the glob on the key's last element; an empty glob matches all. */
  predicate Candidate(o: Object, matches: string -> bool) {
    !EndsInSlash(o.key) && o.size != 0 && matches(o.key)
  }

  /** The object at `i` is the newest candidate, and the first of those equally new. */
  predicate IsNewest(objects: seq<Object>, matches: string -> bool, i: nat) {
    && i < |objects| && Candidate(objects[i], matches)
    && (forall j :: 0 <= j < |objects| && Candidate(objects[j], matches) ==> objects[j].modified <= objects[i].modified)
    && (forall j :: 0 <= j < i && Candidate(objects[j], matches) ==> objects[j].modified < objects[i].modified)
  }

  predicate NoCandidate(objects: seq<Object>, matches: string -> bool) {
    forall o <- objects :: !Candidate(o, matches)
  }

  lemma NewestIsUnique(objects: seq<Object>, matches: string -> bool, i: nat, j: nat)
    requires IsNewest(objects, matches, i) && IsNewest(objects, matches, j)
    ensures i == j
  {
  }

  /** The newest candidate so far: where it is, if there is one. */
  ghost predicate Leads(objects: seq<Object>, matches: string -> bool, newest: Option<Object>) {
    match newest
    case None => NoCandidate(objects, matches)
    case Some(o) => exists i: nat :: IsNewest(objects, matches, i) && objects[i] == o
  }

  lemma Extend(objects: seq<Object>, matches: string -> bool, newest: Option<Object>, o: Object)
    requires Leads(objects, matches, newest)
    ensures Leads(objects + [o], matches,
                  if Candidate(o, matches) && (newest.None? || o.modified > newest.value.modified)
                  then Some(o) else newest)
  {
    var more, last := objects + [o], |objects|;
    assert forall j :: 0 <= j < |objects| ==> more[j] == objects[j];
    assert newest.None? ==> forall j :: 0 <= j < |objects| ==> !Candidate(objects[j], matches) by {
      assert newest.None? ==> forall j :: 0 <= j < |objects| ==> objects[j] in objects;
    }
    if Candidate(o, matches) && (newest.None? || o.modified > newest.value.modified) {
      assert IsNewest(more, matches, last);
    } else if newest.Some? {
      var i: nat :| IsNewest(objects, matches, i) && objects[i] == newest.value;
      assert IsNewest(more, matches, i);
    }
  }

  /** What was listed before the listing failed, if it did. */
  function Listed(pages: seq<Page>): seq<Object> {
    if pages == [] || pages[0].FailedPage? then [] else pages[0].contents + Listed(pages[1..])
  }

  predicate Fails(pages: seq<Page>) {
    FailedPage in pages
  }

  /** The promise, in terms of the whole listing and not of its pages. */
  ghost predicate Selects(pages: seq<Page>, matches: string -> bool, r: Outcome) {
    var all := Listed(pages);
    if |all| > MAX_LIST_KEYS then r == TooMany
    else if Fails(pages) then r == ListingFailed
    else if NoCandidate(all, matches) then r == NoMatch
    else exists i: nat :: IsNewest(all, matches, i) && r == Found(all[i].key)
  }

  method LatestObject(pages: seq<Page>, matches: string -> bool) returns (r: Outcome)
    ensures Selects(pages, matches, r)
  {
    var newest: Option<Object> := None;
    var seen := 0;
    ghost var done: seq<Object> := [];
    for p := 0 to |pages|
      invariant done + Listed(pages[p..]) == Listed(pages)
      invariant Fails(pages) <==> Fails(pages[p..])
      invariant seen == |done| <= MAX_LIST_KEYS
      invariant Leads(done, matches, newest)
    {
      assert pages[p..] == [pages[p]] + pages[p + 1..];
      if pages[p].FailedPage? {
        return ListingFailed;
      }
      var tooMany;
      newest, seen, tooMany := ScanPage(pages[p].contents, matches, newest, seen, done);
      if tooMany {
        assert |Listed(pages)| >= |done| + |pages[p].contents|;
        return TooMany;
      }
      done := done + pages[p].contents;
    }
    assert done == Listed(pages);
    r := if newest.None? then NoMatch else Found(newest.value.key);
    LeaderIsSelected(done, matches, newest);
  }

  lemma LeaderIsSelected(all: seq<Object>, matches: string -> bool, newest: Option<Object>)
    requires Leads(all, matches, newest)
    ensures newest.None? <==> NoCandidate(all, matches)
    ensures newest.Some? ==> exists i: nat :: IsNewest(all, matches, i) && newest.value.key == all[i].key
  {
    if newest.Some? {
      var i: nat :| IsNewest(all, matches, i) && all[i] == newest.value;
      assert all[i] in all;
    }
  }

  method ScanPage(page: seq<Object>, matches: string -> bool, leader: Option<Object>, before: nat,
                  ghost done: seq<Object>)
    returns (newest: Option<Object>, seen: nat, tooMany: bool)
    requires before == |done| <= MAX_LIST_KEYS && Leads(done, matches, leader)
    ensures tooMany <==> |done| + |page| > MAX_LIST_KEYS
    ensures !tooMany ==> seen == |done| + |page| && Leads(done + page, matches, newest)
  {
    newest, seen, tooMany := leader, before, false;
    assert done + page[..0] == done;
    for k := 0 to |page|
      invariant seen == before + k <= MAX_LIST_KEYS
      invariant Leads(done + page[..k], matches, newest)
    {
      seen := seen + 1;
      if seen > MAX_LIST_KEYS {
        return newest, seen, true;
      }
      var o := page[k];
      Extend(done + page[..k], matches, newest, o);
      assert done + page[..k + 1] == done + page[..k] + [o];
      if EndsInSlash(o.key) || o.size == 0 {
        continue;
      }
      if !matches(o.key) {
        continue;
      }
      if newest.None? || o.modified > newest.value.modified {
        newest := Some(o);
      }
    }
    assert page[..|page|] == page;
  }

  /** How the listing was cut into pages does not matter. */
  lemma PagesDoNotMatter(pages1: seq<Page>, pages2: seq<Page>, matches: string -> bool, r1: Outcome, r2: Outcome)
    requires Listed(pages1) == Listed(pages2) && Fails(pages1) == Fails(pages2)
    requires Selects(pages1, matches, r1) && Selects(pages2, matches, r2)
    ensures r1 == r2
  {
    var all := Listed(pages1);
    if r1.Found? && r2.Found? {
      var i: nat :| IsNewest(all, matches, i) && r1 == Found(all[i].key);
      var j: nat :| IsNewest(all, matches, j) && r2 == Found(all[j].key);
      NewestIsUnique(all, matches, i, j);
    }
  }

  /** Exactly when there is a selection: the listing came through, was not too long, and held a candidate. */
  lemma WhenFound(pages: seq<Page>, matches: string -> bool, r: Outcome)
    requires Selects(pages, matches, r)
    ensures r.Found? <==>
      |Listed(pages)| <= 10000 && !Fails(pages) && exists o <- Listed(pages) :: Candidate(o, matches)
  {
  }

  /** The key of a folder placeholder. */
  ghost predicate IsFolder(key: string) {
    exists prefix: string :: key == prefix + "/"
  }

  lemma FoldersEndInSlash(key: string)
    ensures EndsInSlash(key) <==> IsFolder(key)
  {
    if EndsInSlash(key) {
      assert key == key[..|key| - 1] + "/";
    }
  }

  ghost predicate WorthRestoring(o: Object, matches: string -> bool) {
    o.size != 0 && matches(o.key) && !IsFolder(o.key)
  }

  /** What is found is a matching object with contents and no folder, and none such is newer; and nothing is found in a
      complete listing within the bound only if there is none such. */
  lemma FoundIsNewest(pages: seq<Page>, matches: string -> bool, r: Outcome)
    requires Selects(pages, matches, r)
    ensures r.Found? ==> exists o <- Listed(pages) ::
      && o.key == r.key && WorthRestoring(o, matches)
      && forall x <- Listed(pages) :: WorthRestoring(x, matches) ==> x.modified <= o.modified
    ensures r.NoMatch? ==> forall x <- Listed(pages) :: !WorthRestoring(x, matches)
  {
    forall x | x in Listed(pages) ensures Candidate(x, matches) <==> WorthRestoring(x, matches) {
      FoldersEndInSlash(x.key);
    }
    if r.Found? {
      var all := Listed(pages);
      var i: nat :| IsNewest(all, matches, i) && all[i].key == r.key;
      assert all[i] in all && WorthRestoring(all[i], matches);
    }
  }

  // ---- A directory of backups

  /** A directory entry; `info` is None when it cannot be looked at. */
  datatype Entry = Entry(name: string, isDir: bool, info: Option<(int, Time)>)

  predicate Usable(e: Entry, matches: string -> bool) {
    !e.isDir && matches(e.name) && e.info.Some? && e.info.value.0 != 0
  }

  predicate IsNewestEntry(entries: seq<Entry>, matches: string -> bool, i: nat) {
    && i < |entries| && Usable(entries[i], matches)
    && (forall j :: 0 <= j < |entries| && Usable(entries[j], matches) ==>
        entries[j].info.value.1 <= entries[i].info.value.1)
    && (forall j :: 0 <= j < i && Usable(entries[j], matches) ==> entries[j].info.value.1 < entries[i].info.value.1)
  }

  lemma NewestEntryIsUnique(entries: seq<Entry>, matches: string -> bool, i: nat, j: nat)
    requires IsNewestEntry(entries, matches, i) && IsNewestEntry(entries, matches, j)
    ensures i == j
  {
  }

  /** The newest usable file, the first of those equally new, and none exactly when none is usable. */
  method LatestFile(entries: seq<Entry>, matches: string -> bool) returns (r: Option<string>)
    ensures r.None? <==> forall e <- entries :: !Usable(e, matches)
    ensures r.Some? ==> exists i: nat :: IsNewestEntry(entries, matches, i) && r.value == entries[i].name
  {
    var newest: Option<string> := None;
    var newestMod := 0;
    ghost var at: nat := 0;
    for k := 0 to |entries|
      invariant newest.None? ==> forall j :: 0 <= j < k ==> !Usable(entries[j], matches)
      invariant newest.Some? ==> IsNewestEntry(entries[..k], matches, at)
      invariant newest.Some? ==> newest.value == entries[at].name && newestMod == entries[at].info.value.1
    {
      var e := entries[k];
      assert forall j :: 0 <= j < k ==> entries[..k + 1][j] == entries[j];
      if e.isDir || !matches(e.name) {
        continue;
      }
      if e.info.None? || e.info.value.0 == 0 {
        continue;
      }
      if newest.None? || e.info.value.1 > newestMod {
        newest, newestMod := Some(e.name), e.info.value.1;
        at := k;
      }
    }
    assert entries[..|entries|] == entries;
    if newest.Some? {
      assert entries[at] in entries;
    }
    return newest;
  }
}
