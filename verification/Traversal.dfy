/** The directory walk: a stack of directories, and what it emits on the way. */
module Traversal {
  import Runner

  /** What the walk finds. `opens` and `linked` say whether the calls on the object succeed. */
  datatype Node =
    | Dir(opens: bool, batches: seq<Batch>)
    | Reg
    | Lnk(target: Runner.Option<string>, linked: bool)
    | Other

  /** What `statx` answers: what is there, and `stx_size`. It follows links, so for a link that is what
      the link leads to. */
  datatype Stat = Stat(node: Node, size: nat)

  /** A directory entry: what its own type says, if it carries one, and what `statx` answers, if it
      succeeds. */
  datatype Entry = Entry(name: string, listed: Runner.Option<Node>, stat: Runner.Option<Stat>)

  /** The answers to one `getdents` call after the other; an empty batch, or none, is the end. */
  datatype Batch = Entries(entries: seq<Entry>) | Failed

  datatype Event =
    | MakeDir(path: string)
    | Copy(from: string, path: string, size: nat)
    | Symlink(target: string, path: string)
    | Report

  predicate IsDots(name: string) {
    name == "." || name == ".."
  }

  /** What the walk takes an entry for: only an entry without a type is looked up. */
  function Found(e: Entry): Runner.Option<Node> {
    if e.listed.Some? then e.listed
    else if e.stat.Some? then Runner.Some(e.stat.value.node)
    else Runner.None
  }

  // ---------------------------------------------------------------- what is expected, recursively

  function ExpectDir(from: string, dest: string, d: Node, rel: string): seq<Event>
    decreases d
  {
    if !d.Dir? then []
    else if !d.opens then [Report]
    else ExpectBatches(from, dest, d.batches, false, rel)
  }

  /** `written` tells whether the last successful call delivered anything: only then does the loop go
      on after a failure. */
  function ExpectBatches(from: string, dest: string, bs: seq<Batch>, written: bool, rel: string): seq<Event>
    decreases bs
  {
    if bs == [] then []
    else match bs[0]
      case Failed => [Report] + (if written then ExpectBatches(from, dest, bs[1..], true, rel) else [])
      case Entries(es) =>
        if es == [] then []
        else ExpectEntries(from, dest, es, rel) + ExpectBatches(from, dest, bs[1..], true, rel)
  }

  /** Whether the loop goes on after an answer: after a failure, only if something was delivered before. */
  predicate Continues(answer: Batch, written: bool) {
    if answer.Failed? then written else answer.entries != []
  }

  function ExpectEntries(from: string, dest: string, es: seq<Entry>, rel: string): seq<Event>
    decreases es
  {
    if es == [] then []
    else ExpectEntry(from, dest, es[0], rel) + ExpectEntries(from, dest, es[1..], rel)
  }

  function ExpectEntry(from: string, dest: string, e: Entry, rel: string): seq<Event>
    decreases e
  {
    if Found(e).None? then [Report]
    else match Found(e).value
      case Dir(_, _) =>
        if IsDots(e.name) then []
        else [MakeDir(dest + rel + e.name)] + ExpectDir(from, dest, Found(e).value, rel + e.name + "/")
      case Reg =>
        if e.stat.Some? then [Copy(from + rel + e.name, dest + rel + e.name, e.stat.value.size)] else [Report]
      case Lnk(target, linked) => ExpectLink(target, linked, dest + rel + e.name)
      case Other => [Report]
  }

  function ExpectLink(target: Runner.Option<string>, linked: bool, path: string): seq<Event> {
    if target.None? then [Report]
    else if linked then [Symlink(target.value, path)]
    else [Symlink(target.value, path), Report]
  }

  // ---------------------------------------------------------------- the tree by paths

  /** The entries the loop over `getdents` gets to see. */
  function Listed(bs: seq<Batch>, written: bool): seq<Entry> {
    if bs == [] then []
    else match bs[0]
      case Failed => if written then Listed(bs[1..], true) else []
      case Entries(es) => if es == [] then [] else es + Listed(bs[1..], true)
  }

  /** How many of the calls that the loop makes fail. */
  function FailedCalls(bs: seq<Batch>, written: bool): nat {
    if bs == [] then 0
    else match bs[0]
      case Failed => 1 + (if written then FailedCalls(bs[1..], true) else 0)
      case Entries(es) => if es == [] then 0 else FailedCalls(bs[1..], true)
  }

  /** The entry is listed as this, or it is listed without a type and `statx` finds this. */
  predicate SeenAs(e: Entry, n: Node) {
    e.listed == Runner.Some(n) || (e.listed.None? && e.stat.Some? && e.stat.value.node == n)
  }

  /** Following the names through directories that can be opened leads to the entry. */
  ghost predicate LeadsTo(d: Node, path: seq<string>, e: Entry)
    decreases |path|, 1
  {
    d.Dir? && d.opens && path != [] && exists first :: first in Listed(d.batches, false) && Leads(first, path, e)
  }

  ghost predicate Leads(first: Entry, path: seq<string>, e: Entry)
    requires path != []
    decreases |path|, 0
  {
    && first.name == path[0]
    && (|path| == 1 ==> e == first)
    && (|path| > 1 ==>
      path[0] != "." && path[0] != ".." && exists inner :: SeenAs(first, inner) && inner.Dir? && LeadsTo(inner, path[1..], e))
  }

  function Join(path: seq<string>): string {
    if path == [] then "" else if |path| == 1 then path[0] else path[0] + "/" + Join(path[1..])
  }

  /** A directory that is reported: it cannot be opened, or a call that lists it fails. */
  predicate Unreadable(d: Node) {
    d.Dir? && (!d.opens || FailedCalls(d.batches, false) > 0)
  }

  /** What is due for an entry at this place below the two roots: a copy for a regular file, of the size
      that `statx` gives; a link with the same target for a link that can be read; a directory for a
      directory; and a report if `statx` fails where it is needed, the link cannot be read or made, the
      directory cannot be read, or the type is another. */
  ghost predicate Owed(from: string, dest: string, e: Entry, place: string, v: Event) {
    match v
    case Copy(source, path, size) =>
      SeenAs(e, Reg) && e.stat.Some? && e.stat.value.size == size && source == from + place && path == dest + place
    case Symlink(target, path) =>
      (SeenAs(e, Lnk(Runner.Some(target), true)) || SeenAs(e, Lnk(Runner.Some(target), false))) && path == dest + place
    case MakeDir(path) =>
      (exists inner :: SeenAs(e, inner) && inner.Dir?) && e.name != "." && e.name != ".." && path == dest + place
    case Report =>
      || (e.listed.None? && e.stat.None?)
      || (SeenAs(e, Reg) && e.stat.None?)
      || SeenAs(e, Lnk(Runner.None, true)) || SeenAs(e, Lnk(Runner.None, false))
      || (exists target :: SeenAs(e, Lnk(Runner.Some(target), false)))
      || (exists inner :: SeenAs(e, inner) && Unreadable(inner) && e.name != "." && e.name != "..")
      || SeenAs(e, Other)
  }

  /** What is due for a tree, apart from its root directory. */
  ghost predicate Due(from: string, dest: string, root: Node, v: Event) {
    || (v.Report? && Unreadable(root))
    || exists path, e :: LeadsTo(root, path, e) && Owed(from, dest, e, Join(path), v)
  }

  // ---------------------------------------------------------------- everything due is expected

  lemma {:induction false} EntryInBatches(
      from: string, dest: string, bs: seq<Batch>, written: bool, rel: string, e: Entry, v: Event)
    requires e in Listed(bs, written) && v in ExpectEntry(from, dest, e, rel)
    ensures v in ExpectBatches(from, dest, bs, written, rel)
  {
    hide ExpectEntry;
    match bs[0]
    case Failed => EntryInBatches(from, dest, bs[1..], true, rel, e, v);
    case Entries(es) =>
      if e in es {
        EntryInEntries(from, dest, es, rel, e, v);
      } else {
        EntryInBatches(from, dest, bs[1..], true, rel, e, v);
      }
  }

  lemma {:induction false} EntryInEntries(from: string, dest: string, es: seq<Entry>, rel: string, e: Entry, v: Event)
    requires e in es && v in ExpectEntry(from, dest, e, rel)
    ensures v in ExpectEntries(from, dest, es, rel)
  {
    hide ExpectEntry;
    if e != es[0] {
      EntryInEntries(from, dest, es[1..], rel, e, v);
    }
  }

  lemma {:induction false} FailureInBatches(from: string, dest: string, bs: seq<Batch>, written: bool, rel: string)
    requires FailedCalls(bs, written) > 0
    ensures Report in ExpectBatches(from, dest, bs, written, rel)
  {
    hide ExpectEntries;
    if bs[0].Entries? {
      FailureInBatches(from, dest, bs[1..], true, rel);
    }
  }

  lemma UnreadableReports(from: string, dest: string, d: Node, rel: string)
    requires Unreadable(d)
    ensures Report in ExpectDir(from, dest, d, rel)
  {
    if d.opens {
      FailureInBatches(from, dest, d.batches, false, rel);
    }
  }

  lemma OwedInEntry(from: string, dest: string, e: Entry, rel: string, v: Event)
    requires Owed(from, dest, e, rel + e.name, v)
    ensures v in ExpectEntry(from, dest, e, rel)
  {
    hide ExpectDir;
    assert from + (rel + e.name) == from + rel + e.name && dest + (rel + e.name) == dest + rel + e.name;
    if v.Report? {
      if inner :| SeenAs(e, inner) && Unreadable(inner) && e.name != "." && e.name != ".." {
        UnreadableReports(from, dest, inner, rel + e.name + "/");
      }
    }
  }

  lemma {:induction false} OwedInDir(from: string, dest: string, d: Node, rel: string, path: seq<string>, e: Entry, v: Event)
    requires LeadsTo(d, path, e) && Owed(from, dest, e, rel + Join(path), v)
    ensures v in ExpectDir(from, dest, d, rel)
    decreases |path|
  {
    hide Owed, ExpectEntry, ExpectBatches;
    var first :| first in Listed(d.batches, false) && Leads(first, path, e);
    if |path| == 1 {
      OwedInEntry(from, dest, e, rel, v);
    } else {
      var inner :| SeenAs(first, inner) && inner.Dir? && path[0] != "." && path[0] != ".." && LeadsTo(inner, path[1..], e);
      var rel' := rel + first.name + "/";
      assert rel + Join(path) == rel' + Join(path[1..]);
      OwedInDir(from, dest, inner, rel', path[1..], e, v);
      InnerInEntry(from, dest, first, inner, rel, v);
    }
    EntryInBatches(from, dest, d.batches, false, rel, first, v);
  }

  lemma InnerInEntry(from: string, dest: string, e: Entry, inner: Node, rel: string, v: Event)
    requires SeenAs(e, inner) && inner.Dir? && e.name != "." && e.name != ".."
    requires v in ExpectDir(from, dest, inner, rel + e.name + "/")
    ensures v in ExpectEntry(from, dest, e, rel)
  {
    hide ExpectDir;
  }

  // ---------------------------------------------------------------- nothing else is

  /** Where an event comes from: the path from an entry on, and the entry at its end. */
  lemma {:induction false} OriginOfEntry(from: string, dest: string, e: Entry, rel: string, v: Event)
      returns (path: seq<string>, f: Entry)
    requires v in ExpectEntry(from, dest, e, rel)
    ensures path != [] && Leads(e, path, f) && Owed(from, dest, f, rel + Join(path), v)
    decreases e
  {
    hide ExpectDir, LeadsTo;
    path, f := [e.name], e;
    assert from + (rel + e.name) == from + rel + e.name && dest + (rel + e.name) == dest + rel + e.name;
    if Found(e).Some? {
      var n := Found(e).value;
      assert SeenAs(e, n);
      if n.Dir? && v != MakeDir(dest + rel + e.name) && !(v.Report? && Unreadable(n)) {
        var rel' := rel + e.name + "/";
        var rest;
        rest, f := OriginOfDir(from, dest, n, rel', v);
        path := [e.name] + rest;
        assert path[1..] == rest;
        assert rel' + Join(rest) == rel + Join(path);
        hide Owed;
      }
    }
  }

  lemma {:induction false} OriginOfEntries(from: string, dest: string, es: seq<Entry>, rel: string, v: Event)
      returns (e: Entry, path: seq<string>, f: Entry)
    requires v in ExpectEntries(from, dest, es, rel)
    ensures e in es && path != [] && Leads(e, path, f) && Owed(from, dest, f, rel + Join(path), v)
    decreases es
  {
    hide Owed, Leads, ExpectEntry;
    if v in ExpectEntry(from, dest, es[0], rel) {
      e := es[0];
      path, f := OriginOfEntry(from, dest, e, rel, v);
    } else {
      e, path, f := OriginOfEntries(from, dest, es[1..], rel, v);
    }
  }

  lemma {:induction false} OriginOfBatches(from: string, dest: string, bs: seq<Batch>, written: bool, rel: string, v: Event)
      returns (e: Entry, path: seq<string>, f: Entry)
    requires v in ExpectBatches(from, dest, bs, written, rel) && !(v.Report? && FailedCalls(bs, written) > 0)
    ensures e in Listed(bs, written) && path != [] && Leads(e, path, f) && Owed(from, dest, f, rel + Join(path), v)
    decreases bs
  {
    hide Owed, Leads, ExpectEntries;
    if bs[0].Entries? && v in ExpectEntries(from, dest, bs[0].entries, rel) {
      e, path, f := OriginOfEntries(from, dest, bs[0].entries, rel, v);
    } else {
      e, path, f := OriginOfBatches(from, dest, bs[1..], true, rel, v);
    }
  }

  lemma {:induction false} OriginOfDir(from: string, dest: string, d: Node, rel: string, v: Event)
      returns (path: seq<string>, f: Entry)
    requires v in ExpectDir(from, dest, d, rel) && !(v.Report? && Unreadable(d))
    ensures LeadsTo(d, path, f) && path != [] && Owed(from, dest, f, rel + Join(path), v)
    decreases d
  {
    hide Owed, Leads;
    var e;
    e, path, f := OriginOfBatches(from, dest, d.batches, false, rel, v);
  }

  lemma OwedIsExpected(from: string, dest: string, root: Node, path: seq<string>, e: Entry, v: Event)
    requires LeadsTo(root, path, e) && Owed(from, dest, e, Join(path), v)
    ensures v in ExpectDir(from, dest, root, "")
  {
    hide Owed, LeadsTo, ExpectDir;
    assert "" + Join(path) == Join(path);
    OwedInDir(from, dest, root, "", path, e, v);
  }

  lemma ExpectedIsOwed(from: string, dest: string, root: Node, v: Event) returns (path: seq<string>, e: Entry)
    requires v in ExpectDir(from, dest, root, "") && !(v.Report? && Unreadable(root))
    ensures LeadsTo(root, path, e) && Owed(from, dest, e, Join(path), v)
  {
    hide Owed, LeadsTo, ExpectDir;
    path, e := OriginOfDir(from, dest, root, "", v);
    assert "" + Join(path) == Join(path);
  }

  /** What the recursive reading of a tree expects is, event by event, what is due for it. */
  lemma EventsAreDue(from: string, dest: string, root: Node, v: Event)
    ensures v in ExpectDir(from, dest, root, "") <==> Due(from, dest, root, v)
  {
    hide Owed, LeadsTo, ExpectDir;
    if v in ExpectDir(from, dest, root, "") && !(v.Report? && Unreadable(root)) {
      var path, e := ExpectedIsOwed(from, dest, root, v);
    }
    if v.Report? && Unreadable(root) {
      UnreadableReports(from, dest, root, "");
    }
    if path, e :| LeadsTo(root, path, e) && Owed(from, dest, e, Join(path), v) {
      OwedIsExpected(from, dest, root, path, e, v);
    }
  }

  /** The copy jobs are exactly the regular files that can be reached and read, each of the size that
      `statx` gives and with the path below the destination that it has below the source. */
  lemma JobsAreFiles(from: string, dest: string, root: Node, source: string, target: string, size: nat)
    ensures Copy(source, target, size) in ExpectDir(from, dest, root, "") <==>
      exists path, e :: LeadsTo(root, path, e)
        && (if e.listed.Some? then e.listed.value.Reg? else e.stat.Some? && e.stat.value.node.Reg?)
        && e.stat.Some? && e.stat.value.size == size
        && source == from + Join(path) && target == dest + Join(path)
  {
    hide LeadsTo, ExpectDir;
    var v := Copy(source, target, size);
    if v in ExpectDir(from, dest, root, "") {
      var path, e := ExpectedIsOwed(from, dest, root, v);
    }
    forall path, e | LeadsTo(root, path, e)
        && (if e.listed.Some? then e.listed.value.Reg? else e.stat.Some? && e.stat.value.node.Reg?)
        && e.stat.Some? && e.stat.value.size == size
        && source == from + Join(path) && target == dest + Join(path)
      ensures v in ExpectDir(from, dest, root, "")
    {
      OwedIsExpected(from, dest, root, path, e, v);
    }
  }

  /** The links made are exactly the links that can be reached and read, each with its target. What has a
      type is never looked up, so a link is not taken for the file that it leads to. */
  lemma LinksAreLinks(from: string, dest: string, root: Node, target: string, place: string)
    ensures Symlink(target, place) in ExpectDir(from, dest, root, "") <==>
      exists path, e, linked :: LeadsTo(root, path, e) && place == dest + Join(path)
        && (if e.listed.Some? then e.listed.value == Lnk(Runner.Some(target), linked)
            else e.stat.Some? && e.stat.value.node == Lnk(Runner.Some(target), linked))
  {
    hide LeadsTo, ExpectDir;
    var v := Symlink(target, place);
    if v in ExpectDir(from, dest, root, "") {
      var path, e := ExpectedIsOwed(from, dest, root, v);
      var linked := SeenAs(e, Lnk(Runner.Some(target), true));
      assert SeenAs(e, Lnk(Runner.Some(target), linked));
    }
    forall path, e, linked | LeadsTo(root, path, e) && place == dest + Join(path)
        && (if e.listed.Some? then e.listed.value == Lnk(Runner.Some(target), linked)
            else e.stat.Some? && e.stat.value.node == Lnk(Runner.Some(target), linked))
      ensures v in ExpectDir(from, dest, root, "")
    {
      OwedIsExpected(from, dest, root, path, e, v);
    }
  }

  /** The directories made are exactly those that can be reached, the two dots aside. */
  lemma DirsAreDirs(from: string, dest: string, root: Node, place: string)
    ensures MakeDir(place) in ExpectDir(from, dest, root, "") <==>
      exists path, e :: LeadsTo(root, path, e)
        && (if e.listed.Some? then e.listed.value.Dir? else e.stat.Some? && e.stat.value.node.Dir?)
        && e.name != "." && e.name != ".." && place == dest + Join(path)
  {
    hide LeadsTo, ExpectDir;
    var v := MakeDir(place);
    if v in ExpectDir(from, dest, root, "") {
      var path, e := ExpectedIsOwed(from, dest, root, v);
    }
    forall path, e | LeadsTo(root, path, e)
        && (if e.listed.Some? then e.listed.value.Dir? else e.stat.Some? && e.stat.value.node.Dir?)
        && e.name != "." && e.name != ".." && place == dest + Join(path)
      ensures v in ExpectDir(from, dest, root, "")
    {
      assert SeenAs(e, if e.listed.Some? then e.listed.value else e.stat.value.node);
      OwedIsExpected(from, dest, root, path, e, v);
    }
  }

  // ---------------------------------------------------------------- and only one

  /** The event puts something at a place below the destination. */
  predicate Placed(v: Event) {
    !v.Report?
  }

  predicate DifferentNames(es: seq<Entry>) {
    forall j, k :: 0 <= j < k < |es| ==> es[j].name != es[k].name
  }

  /** Names as a file system gives them: not empty, without a slash, and different in a directory. */
  predicate NamesOk(d: Node)
    decreases d
  {
    d.Dir? ==> NamesOkIn(d.batches) && DifferentNames(Listed(d.batches, false))
  }

  predicate NamesOkIn(bs: seq<Batch>)
    decreases bs
  {
    bs != [] ==> (bs[0].Entries? ==> NamesOkAmong(bs[0].entries)) && NamesOkIn(bs[1..])
  }

  predicate NamesOkAmong(es: seq<Entry>)
    decreases es
  {
    es != [] ==> NameOk(es[0]) && NamesOkAmong(es[1..])
  }

  predicate NameOk(e: Entry)
    decreases e
  {
    e.name != "" && '/' !in e.name && (Found(e).Some? ==> NamesOk(Found(e).value))
  }

  lemma {:induction false} ListedNameOk(bs: seq<Batch>, written: bool, e: Entry)
    requires NamesOkIn(bs) && e in Listed(bs, written)
    ensures NameOk(e)
  {
    if bs[0].Entries? && e in bs[0].entries {
      AmongNameOk(bs[0].entries, e);
    } else {
      ListedNameOk(bs[1..], true, e);
    }
  }

  lemma {:induction false} AmongNameOk(es: seq<Entry>, e: Entry)
    requires NamesOkAmong(es) && e in es
    ensures NameOk(e)
  {
    if e != es[0] {
      AmongNameOk(es[1..], e);
    }
  }

  function UpToSlash(s: string): string {
    if s == "" || s[0] == '/' then "" else [s[0]] + UpToSlash(s[1..])
  }

  lemma {:induction false} UpToSlashOf(head: string, rest: string)
    requires '/' !in head && (rest == "" || rest[0] == '/')
    ensures UpToSlash(head + rest) == head
  {
    if head == "" {
      assert head + rest == rest;
    } else {
      assert (head + rest)[1..] == head[1..] + rest;
      UpToSlashOf(head[1..], rest);
    }
  }

  /** A joined path shows its first name. */
  lemma JoinHead(p: seq<string>)
    requires p != [] && '/' !in p[0]
    ensures UpToSlash(Join(p)) == p[0]
  {
    if |p| == 1 {
      assert p[0] + "" == p[0];
      UpToSlashOf(p[0], "");
    } else {
      assert Join(p) == p[0] + ("/" + Join(p[1..]));
      UpToSlashOf(p[0], "/" + Join(p[1..]));
    }
  }

  /** Two entries that lead to the same event have the same name. */
  lemma SameHead(from: string, dest: string, e: Entry, e': Entry, rel: string, v: Event)
    requires Placed(v) && v in ExpectEntry(from, dest, e, rel) && v in ExpectEntry(from, dest, e', rel)
    requires '/' !in e.name && '/' !in e'.name
    ensures e.name == e'.name
  {
    hide ExpectEntry;
    var p := PlaceOfEntry(from, dest, e, rel, v);
    var q := PlaceOfEntry(from, dest, e', rel, v);
    assert Join(p) == v.path[|dest + rel|..] == Join(q);
    JoinHead(p);
    JoinHead(q);
  }

  lemma PlaceOfEntry(from: string, dest: string, e: Entry, rel: string, v: Event) returns (path: seq<string>)
    requires Placed(v) && v in ExpectEntry(from, dest, e, rel)
    ensures path != [] && path[0] == e.name && v.path == dest + rel + Join(path)
  {
    hide ExpectEntry, LeadsTo;
    var f;
    path, f := OriginOfEntry(from, dest, e, rel, v);
    assert dest + (rel + Join(path)) == dest + rel + Join(path);
  }

  function CountIn(v: Event, vs: seq<Event>): nat {
    multiset(vs)[v]
  }

  lemma CountJoin(v: Event, a: seq<Event>, b: seq<Event>)
    ensures CountIn(v, a + b) == CountIn(v, a) + CountIn(v, b)
    ensures v !in a ==> CountIn(v, a) == 0
  {
  }

  lemma {:induction false} OnceAmong(from: string, dest: string, es: seq<Entry>, rel: string, v: Event)
    requires Placed(v) && DifferentNames(es)
    requires forall e :: e in es ==> '/' !in e.name && CountIn(v, ExpectEntry(from, dest, e, rel)) <= 1
    ensures CountIn(v, ExpectEntries(from, dest, es, rel)) <= 1
  {
    hide CountIn, ExpectEntry;
    CountJoin(v, [], []);
    if es != [] {
      var mine, rest := ExpectEntry(from, dest, es[0], rel), ExpectEntries(from, dest, es[1..], rel);
      CountJoin(v, mine, rest);
      CountJoin(v, rest, []);
      OnceAmong(from, dest, es[1..], rel, v);
      if v in mine && v in rest {
        InSome(from, dest, es[1..], rel, v, es[0]);
      }
    }
  }

  /** An entry of another name has no share in the event. */
  lemma {:induction false} InSome(from: string, dest: string, es: seq<Entry>, rel: string, v: Event, e: Entry)
    requires Placed(v) && v in ExpectEntry(from, dest, e, rel) && v in ExpectEntries(from, dest, es, rel)
    requires '/' !in e.name && forall o :: o in es ==> '/' !in o.name
    ensures exists o :: o in es && o.name == e.name
  {
    hide ExpectEntry;
    if v in ExpectEntry(from, dest, es[0], rel) {
      SameHead(from, dest, e, es[0], rel, v);
    } else {
      InSome(from, dest, es[1..], rel, v, e);
    }
  }

  /** Failed calls aside, the batches amount to the entries they list. */
  lemma {:induction false} BatchesAreEntries(from: string, dest: string, bs: seq<Batch>, written: bool, rel: string, v: Event)
    requires v != Report
    ensures CountIn(v, ExpectBatches(from, dest, bs, written, rel)) == CountIn(v, ExpectEntries(from, dest, Listed(bs, written), rel))
  {
    if bs != [] {
      if bs[0].Failed? {
        CountJoin(v, [Report], if written then ExpectBatches(from, dest, bs[1..], true, rel) else []);
        if written {
          BatchesAreEntries(from, dest, bs[1..], true, rel, v);
        }
      } else if bs[0].entries != [] {
        BatchesAreEntries(from, dest, bs[1..], true, rel, v);
        EntriesJoin(from, dest, bs[0].entries, Listed(bs[1..], true), rel);
        CountJoin(v, ExpectEntries(from, dest, bs[0].entries, rel), ExpectBatches(from, dest, bs[1..], true, rel));
        CountJoin(v, ExpectEntries(from, dest, bs[0].entries, rel), ExpectEntries(from, dest, Listed(bs[1..], true), rel));
      }
    }
  }

  lemma {:induction false} EntriesJoin(from: string, dest: string, a: seq<Entry>, b: seq<Entry>, rel: string)
    ensures ExpectEntries(from, dest, a + b, rel) == ExpectEntries(from, dest, a, rel) + ExpectEntries(from, dest, b, rel)
  {
    if a == [] {
      assert a + b == b;
    } else {
      assert (a + b)[1..] == a[1..] + b;
      EntriesJoin(from, dest, a[1..], b, rel);
    }
  }

  /** Nothing is made or copied twice. */
  lemma {:induction false} OnceEach(from: string, dest: string, d: Node, rel: string, v: Event)
    requires Placed(v) && NamesOk(d) && |dest| + |rel| <= |v.path|
    ensures CountIn(v, ExpectDir(from, dest, d, rel)) <= 1
    decreases |v.path| - |dest| - |rel|
  {
    if d.Dir? && d.opens {
      var es := Listed(d.batches, false);
      forall e | e in es
        ensures '/' !in e.name && CountIn(v, ExpectEntry(from, dest, e, rel)) <= 1
      {
        ListedNameOk(d.batches, false, e);
        OnceOfEntry(from, dest, e, rel, v);
      }
      OnceAmong(from, dest, es, rel, v);
      BatchesAreEntries(from, dest, d.batches, false, rel, v);
    }
  }

  lemma {:induction false} OnceOfEntry(from: string, dest: string, e: Entry, rel: string, v: Event)
    requires Placed(v) && NameOk(e) && |dest| + |rel| <= |v.path|
    ensures CountIn(v, ExpectEntry(from, dest, e, rel)) <= 1
    decreases |v.path| - |dest| - |rel|, 0
  {
    if Found(e).Some? && Found(e).value.Dir? && !IsDots(e.name) {
      var rel' := rel + e.name + "/";
      var inner := ExpectDir(from, dest, Found(e).value, rel');
      CountJoin(v, [MakeDir(dest + rel + e.name)], inner);
      CountJoin(v, inner, []);
      if v in inner {
        hide ExpectDir;
        LongerInside(from, dest, Found(e).value, rel', v);
        OnceEach(from, dest, Found(e).value, rel', v);
      }
    }
  }

  lemma LongerInside(from: string, dest: string, d: Node, rel: string, v: Event)
    requires Placed(v) && v in ExpectDir(from, dest, d, rel)
    ensures |dest| + |rel| <= |v.path|
  {
    hide ExpectDir, LeadsTo;
    var path, e := OriginOfDir(from, dest, d, rel, v);
  }

  // ---------------------------------------------------------------- how many reports

  /** The number of things that go wrong in a directory. */
  function TroublesIn(d: Node): nat
    decreases d
  {
    if !d.Dir? then 0 else if !d.opens then 1 else TroublesListed(d.batches, false)
  }

  function TroublesListed(bs: seq<Batch>, written: bool): nat
    decreases bs
  {
    if bs == [] then 0
    else match bs[0]
      case Failed => 1 + (if written then TroublesListed(bs[1..], true) else 0)
      case Entries(es) => if es == [] then 0 else TroublesAmong(es) + TroublesListed(bs[1..], true)
  }

  function TroublesAmong(es: seq<Entry>): nat
    decreases es
  {
    if es == [] then 0 else TroublesOf(es[0]) + TroublesAmong(es[1..])
  }

  function TroublesOf(e: Entry): nat
    decreases e
  {
    if e.listed.None? && e.stat.None? then 1
    else match (if e.listed.Some? then e.listed.value else e.stat.value.node)
      case Dir(opens, batches) =>
        if e.name == "." || e.name == ".." then 0
        else if e.listed.Some? then TroublesIn(e.listed.value) else TroublesIn(e.stat.value.node)
      case Reg => if e.stat.None? then 1 else 0
      case Lnk(target, linked) => if target.None? || !linked then 1 else 0
      case Other => 1
  }

  lemma {:induction false} ReportsIn(from: string, dest: string, d: Node, rel: string)
    ensures CountIn(Report, ExpectDir(from, dest, d, rel)) == TroublesIn(d)
    decreases d
  {
    if d.Dir? && d.opens {
      ReportsListed(from, dest, d.batches, false, rel);
    }
  }

  lemma {:induction false} ReportsListed(from: string, dest: string, bs: seq<Batch>, written: bool, rel: string)
    ensures CountIn(Report, ExpectBatches(from, dest, bs, written, rel)) == TroublesListed(bs, written)
    decreases bs
  {
    hide CountIn, ExpectEntries, TroublesAmong;
    CountJoin(Report, [], []);
    if bs != [] {
      if bs[0].Failed? {
        OneReport();
        if written {
          ReportsListed(from, dest, bs[1..], true, rel);
          CountJoin(Report, [Report], ExpectBatches(from, dest, bs[1..], true, rel));
        } else {
          CountJoin(Report, [Report], []);
        }
      } else if bs[0].entries != [] {
        ReportsAmong(from, dest, bs[0].entries, rel);
        ReportsListed(from, dest, bs[1..], true, rel);
        CountJoin(Report, ExpectEntries(from, dest, bs[0].entries, rel), ExpectBatches(from, dest, bs[1..], true, rel));
      }
    }
  }

  lemma OneReport()
    ensures CountIn(Report, [Report]) == 1
  {
  }

  lemma {:induction false} ReportsAmong(from: string, dest: string, es: seq<Entry>, rel: string)
    ensures CountIn(Report, ExpectEntries(from, dest, es, rel)) == TroublesAmong(es)
    decreases es
  {
    hide CountIn, ExpectEntry, TroublesOf;
    CountJoin(Report, [], []);
    if es != [] {
      ReportsOf(from, dest, es[0], rel);
      ReportsAmong(from, dest, es[1..], rel);
      CountJoin(Report, ExpectEntry(from, dest, es[0], rel), ExpectEntries(from, dest, es[1..], rel));
    }
  }

  lemma {:induction false} ReportsOf(from: string, dest: string, e: Entry, rel: string)
    ensures CountIn(Report, ExpectEntry(from, dest, e, rel)) == TroublesOf(e)
    decreases e
  {
    hide ExpectDir, TroublesIn, CountIn;
    var place := dest + rel + e.name;
    if Found(e).Some? && Found(e).value.Dir? && !IsDots(e.name) {
      ReportsIn(from, dest, Found(e).value, rel + e.name + "/");
      CountJoin(Report, [MakeDir(place)], ExpectDir(from, dest, Found(e).value, rel + e.name + "/"));
    } else {
      OneReport();
      CountJoin(Report, [], []);
      if Found(e).Some? && Found(e).value.Lnk? && Found(e).value.target.Some? {
        var made := Symlink(Found(e).value.target.value, place);
        CountJoin(Report, [made], [Report]);
        assert [made, Report] == [made] + [Report];
      } else if e.stat.Some? {
        CountJoin(Report, [Copy(from + rel + e.name, place, e.stat.value.size)], []);
      }
    }
  }

  // ---------------------------------------------------------------- failing calls

  function Failures(n: nat): seq<Batch> {
    if n == 0 then [] else [Failed] + Failures(n - 1)
  }

  /** A directory that cannot be listed is reported once if the first call fails; after a call that
      delivered something the loop repeats the failing one, and reports it, as often as it fails. */
  lemma {:induction false} FailureIsRetried(from: string, dest: string, n: nat, written: bool, rel: string)
    ensures ExpectBatches(from, dest, Failures(n), written, rel) == seq(if written || n == 0 then n else 1, k => Report)
  {
    if n > 0 {
      assert Failures(n)[1..] == Failures(n - 1);
      FailureIsRetried(from, dest, n - 1, true, rel);
    }
  }

  /** Whether the loop over an endless supply of answers goes on after the first n. */
  predicate GoesOn(answers: nat -> Batch, n: nat) {
    if n == 0 then true
    else GoesOn(answers, n - 1) && Continues(answers(n - 1), n > 1)
  }

  /** The loop over a directory's answers ends if and only if the first call fails or some call
      delivers nothing. A call that fails once something has been delivered is repeated, so if it
      fails for ever the source never leaves this loop; the trees of this model, whose directories
      have finitely many answers, are those in which every loop ends. */
  lemma ListingEnds(answers: nat -> Batch)
    ensures (exists n: nat :: !GoesOn(answers, n)) <==> answers(0).Failed? || exists k: nat :: answers(k) == Entries([])
  {
    if n: nat :| !GoesOn(answers, n) {
      EndHasReason(answers, n);
    }
    if answers(0).Failed? {
      assert !GoesOn(answers, 1);
    }
    if k: nat :| answers(k) == Entries([]) {
      assert !GoesOn(answers, k + 1);
    }
  }

  lemma {:induction false} EndHasReason(answers: nat -> Batch, n: nat)
    requires !GoesOn(answers, n)
    ensures answers(0).Failed? || exists k: nat :: answers(k) == Entries([])
  {
    if !GoesOn(answers, n - 1) {
      EndHasReason(answers, n - 1);
    } else if answers(n - 1).Failed? {
      assert n == 1;
    } else {
      assert answers(n - 1) == Entries([]);
    }
  }

  /** The first answers, as a finite list of the model. */
  function Answered(answers: nat -> Batch, n: nat): seq<Batch> {
    seq(n, k requires 0 <= k < n => answers(k))
  }

  /** Answers that never end the loop: whatever the first call delivers, if every later one fails. The
      failure is reported at each turn. */
  lemma {:induction false} FailsForEver(answers: nat -> Batch, n: nat)
    requires answers(0).Entries? && answers(0).entries != [] && forall k: nat :: k > 0 ==> answers(k).Failed?
    ensures GoesOn(answers, n)
    ensures n > 0 ==> Answered(answers, n) == [answers(0)] + Failures(n - 1)
  {
    if n > 1 {
      FailsForEver(answers, n - 1);
      FailuresGrow(n - 2);
      assert Answered(answers, n) == Answered(answers, n - 1) + [answers(n - 1)];
    } else if n == 1 {
      assert Answered(answers, 1) == [answers(0)];
    }
  }

  lemma {:induction false} FailuresGrow(n: nat)
    ensures Failures(n) + [Failed] == Failures(n + 1)
  {
    if n > 0 {
      FailuresGrow(n - 1);
      assert Failures(n) + [Failed] == [Failed] + (Failures(n - 1) + [Failed]);
    }
  }

  /** One entry, and failures from then on. */
  function OneThenFailed(e: Entry): nat -> Batch {
    (k: nat) => if k == 0 then Entries([e]) else Failed
  }

  /** Such answers exist, and no number of turns ends the loop over them, so `ListingEnds` leaves out
      real inputs; n of its calls yield n - 1 reports of one failure. */
  lemma ListingNeedNotEnd(e: Entry, n: nat, from: string, dest: string, rel: string)
    ensures GoesOn(OneThenFailed(e), n)
    ensures n > 0 ==>
      ExpectBatches(from, dest, Answered(OneThenFailed(e), n), false, rel)
        == ExpectEntry(from, dest, e, rel) + seq(n - 1, k => Report)
  {
    hide ExpectEntry;
    FailsForEver(OneThenFailed(e), n);
    if n > 0 {
      var answers := Answered(OneThenFailed(e), n);
      assert answers[1..] == Failures(n - 1);
      FailureIsRetried(from, dest, n - 1, true, rel);
      assert ExpectEntries(from, dest, [e], rel) == ExpectEntry(from, dest, e, rel) + ExpectEntries(from, dest, [], rel);
    }
  }

  /** A list up to the end of the loop is read to its end, whatever is expected of what would follow it. */
  lemma {:induction false} EndedListing(
      answers: nat -> Batch, k: nat, n: nat, rest: seq<Batch>, from: string, dest: string, rel: string)
    requires k < n && GoesOn(answers, k) && !GoesOn(answers, n) && forall j: nat :: j < n ==> GoesOn(answers, j)
    ensures ExpectBatches(from, dest, Answered(answers, n)[k..] + rest, k > 0, rel)
      == ExpectBatches(from, dest, Answered(answers, n)[k..], k > 0, rel)
    decreases n - k
  {
    var whole := Answered(answers, n)[k..];
    assert (whole + rest)[0] == whole[0] == answers(k);
    assert (whole + rest)[1..] == Answered(answers, n)[k + 1..] + rest && whole[1..] == Answered(answers, n)[k + 1..];
    if k + 1 < n {
      assert GoesOn(answers, k + 1);
      EndedListing(answers, k + 1, n, rest, from, dest, rel);
    } else {
      assert !Continues(answers(k), k > 0);
    }
  }

  // ---------------------------------------------------------------- the walk itself

  /** A directory with its slash: the prefix of the paths inside. */
  function Slashed(dir: string): string {
    if dir != "" && dir[|dir| - 1] == '/' then dir else dir + "/"
  }

  /** The path names something directly inside the directory. */
  predicate Inside(dir: string, path: string) {
    var prefix := Slashed(dir);
    prefix < path && '/' !in path[|prefix|..]
  }

  /** Some earlier event has made the directory that this one puts something in. */
  ghost predicate HasParent(events: seq<Event>, k: nat)
    requires k < |events|
  {
    Placed(events[k]) ==> exists j :: 0 <= j < k && events[j].MakeDir? && Inside(events[j].path, events[k].path)
  }

  /** The directory of this relative path has been made. */
  ghost predicate Made(events: seq<Event>, dest: string, rel: string) {
    exists j :: 0 <= j < |events| && events[j].MakeDir? && Slashed(events[j].path) == dest + rel
  }

  /** A directory on the stack. */
  datatype Item = Item(path: string, dir: Node)

  function RelOf(from: string, path: string): string {
    if |from| <= |path| then path[|from|..] else ""
  }

  /** What the directories on the stack will still emit. */
  function Coming(from: string, dest: string, stack: seq<Item>): multiset<Event> {
    if stack == [] then multiset{}
    else
      var last := stack[|stack| - 1];
      Coming(from, dest, stack[..|stack| - 1]) + multiset(ExpectDir(from, dest, last.dir, RelOf(from, last.path)))
  }

  lemma ComingPush(from: string, dest: string, stack: seq<Item>, item: Item)
    ensures Coming(from, dest, stack + [item])
      == Coming(from, dest, stack) + multiset(ExpectDir(from, dest, item.dir, RelOf(from, item.path)))
  {
    assert (stack + [item])[..|stack|] == stack;
  }

  /** One `addRecursiveCopy` call: its stack, and all it has emitted. */
  class Walk {
    const from: string
    const dest: string
    var directoryStack: seq<Item>
    var events: seq<Event>

    ghost predicate Valid()
      reads this
    {
      && events != [] && dest != "" && dest[|dest| - 1] == '/'
      && (forall k :: 1 <= k < |events| ==> HasParent(events, k))
      && (forall k :: 0 <= k < |directoryStack| ==> ItemOk(directoryStack[k]))
    }

    ghost predicate ItemOk(item: Item)
      reads this
    {
      && item.dir.Dir? && NamesOk(item.dir)
      && from <= item.path && Made(events, dest, RelOf(from, item.path))
    }

    /** All that has been emitted and all that is still to come. */
    ghost function Everything(): multiset<Event>
      reads this
    {
      multiset(events) + Coming(from, dest, directoryStack)
    }

    constructor (from: string, dest: string, root: Node)
      requires from != "" && dest != "" && root.Dir? && NamesOk(root)
      ensures Valid() && fresh(this)
      ensures this.from == Slashed(from) && this.dest == Slashed(dest)
      ensures events == [MakeDir(Slashed(dest))] && directoryStack == [Item(Slashed(from), root)]
      ensures Everything() == multiset([MakeDir(Slashed(dest))]) + multiset(ExpectDir(Slashed(from), Slashed(dest), root, ""))
    {
      this.from, this.dest := Slashed(from), Slashed(dest);
      events := [MakeDir(Slashed(dest))];
      directoryStack := [Item(Slashed(from), root)];
      new;
      ComingPush(this.from, this.dest, [], directoryStack[0]);
      assert [] + [directoryStack[0]] == directoryStack;
      assert Slashed(events[0].path) == this.dest + "";
    }

    method Emit(v: Event)
      requires Valid()
      requires Placed(v) ==> exists j :: 0 <= j < |events| && events[j].MakeDir? && Inside(events[j].path, v.path)
      modifies this`events
      ensures Valid() && events == old(events) + [v]
      ensures Everything() == old(Everything()) + multiset{v}
    {
      ghost var was := events;
      events := events + [v];
      forall k | 1 <= k < |events|
        ensures HasParent(events, k)
      {
        if k < |was| {
          assert HasParent(was, k);
          ParentStays(was, v, k);
        } else if Placed(v) {
          var j :| 0 <= j < |was| && was[j].MakeDir? && Inside(was[j].path, v.path);
          assert events[j] == was[j];
        }
      }
      forall k | 0 <= k < |directoryStack|
        ensures ItemOk(directoryStack[k])
      {
        var rel := RelOf(from, directoryStack[k].path);
        assert Made(was, dest, rel);
        MadeStays(was, v, dest, rel);
      }
    }

    method Push(path: string, dir: Node)
      requires Valid() && ItemOk(Item(path, dir))
      modifies this`directoryStack
      ensures Valid() && directoryStack == old(directoryStack) + [Item(path, dir)]
      ensures Everything() == old(Everything()) + multiset(ExpectDir(from, dest, dir, RelOf(from, path)))
    {
      ComingPush(from, dest, directoryStack, Item(path, dir));
      directoryStack := directoryStack + [Item(path, dir)];
    }

    /** Emitting something that lies in a directory already made. */
    method EmitInside(v: Event, ghost rel: string, ghost name: string)
      requires Valid() && Made(events, dest, rel) && name != "" && '/' !in name
      requires Placed(v) && v.path == dest + rel + name
      modifies this`events
      ensures Valid() && events == old(events) + [v]
      ensures Everything() == old(Everything()) + multiset([v])
    {
      InsideParent(events, dest, rel, name);
      Emit(v);
    }

    /** A directory that is met: it is made, and waits its turn on the stack. */
    method EnterDirectory(fullPath: string, e: Entry, ghost rel: string)
      requires Valid() && Made(events, dest, rel) && NameOk(e) && Found(e).Some? && Found(e).value.Dir? && fullPath == from + rel + e.name
      modifies this
      ensures Valid() && old(events) <= events
      ensures var inner := ExpectDir(from, dest, Found(e).value, rel + e.name + "/");
        Everything() == old(Everything()) + multiset([MakeDir(dest + rel + e.name)] + inner)
      ensures |directoryStack| - |old(directoryStack)| <= |events| - |old(events)|
    {
      hide ExpectDir, Coming, HasParent, Everything;
      ghost var rel', inner := rel + e.name + "/", ExpectDir(from, dest, Found(e).value, rel + e.name + "/");
      assert fullPath[|from|..] == rel + e.name;
      assert dest + (rel + e.name) == dest + rel + e.name;
      EmitInside(MakeDir(dest + fullPath[|from|..]), rel, e.name);
      MadeNow(events, dest, rel, e.name);
      assert fullPath + "/" == from + rel';
      assert RelOf(from, fullPath + "/") == rel';
      Push(fullPath + "/", Found(e).value);
      assert multiset([MakeDir(dest + rel + e.name)] + inner) == multiset([MakeDir(dest + rel + e.name)]) + multiset(inner);
    }

    /** A symbolic link that is met. */
    method VisitLink(target: Runner.Option<string>, linked: bool, destPath: string, ghost rel: string, ghost name: string)
      requires Valid() && Made(events, dest, rel) && name != "" && '/' !in name && destPath == dest + rel + name
      modifies this`events
      ensures Valid() && old(events) <= events
      ensures Everything() == old(Everything()) + multiset(ExpectLink(target, linked, destPath))
    {
      hide Coming, HasParent, ItemOk, Made, Everything;
      if target.None? {
        Emit(Report);
      } else {
        EmitInside(Symlink(target.value, destPath), rel, name);
        if !linked {
          Emit(Report);
          assert [Symlink(target.value, destPath), Report] == [Symlink(target.value, destPath)] + [Report];
        }
      }
    }

    /** One turn of the loop over directory entries. */
    method VisitEntry(current: string, e: Entry)
      requires Valid() && from <= current && Made(events, dest, RelOf(from, current)) && NameOk(e)
      modifies this
      ensures Valid() && old(events) <= events
      ensures Everything() == old(Everything()) + multiset(ExpectEntry(from, dest, e, RelOf(from, current)))
      ensures |directoryStack| - |old(directoryStack)| <= |events| - |old(events)|
    {
      hide ExpectDir, ExpectLink, Coming, HasParent, ItemOk, Made, Everything;
      ghost var rel := RelOf(from, current);
      var fullPath := current + e.name;
      var found := Found(e);
      if found.None? {
        Emit(Report);
        return;
      }
      var destPath := dest + fullPath[|from|..];
      assert fullPath == from + rel + e.name && destPath == dest + rel + e.name;
      match found.value
      case Dir(_, _) =>
        if !IsDots(e.name) {
          EnterDirectory(fullPath, e, rel);
        }
      case Reg =>
        if e.stat.Some? {
          EmitInside(Copy(fullPath, destPath, e.stat.value.size), rel, e.name);
        } else {
          Emit(Report);
        }
      case Lnk(target, linked) => VisitLink(target, linked, destPath, rel, e.name);
      case Other => Emit(Report);
    }

    /** The loop over one batch. */
    method VisitBatch(current: string, es: seq<Entry>)
      requires Valid() && from <= current && Made(events, dest, RelOf(from, current)) && NamesOkAmong(es)
      modifies this
      ensures Valid() && old(events) <= events
      ensures Everything() == old(Everything()) + multiset(ExpectEntries(from, dest, es, RelOf(from, current)))
      ensures |directoryStack| - |old(directoryStack)| <= |events| - |old(events)|
    {
      hide ExpectEntry, Coming, HasParent, ExpectEntries;
      ghost var rel := RelOf(from, current);
      ghost var all := old(Everything()) + multiset(ExpectEntries(from, dest, es, rel));
      var rest := es;
      while rest != []
        invariant Valid() && old(events) <= events && NamesOkAmong(rest)
        invariant Everything() + multiset(ExpectEntries(from, dest, rest, rel)) == all
        invariant |directoryStack| - |old(directoryStack)| <= |events| - |old(events)|
        decreases |rest|
      {
        MadeLasts(old(events), events, dest, rel);
        SplitEntries(from, dest, rest, rel);
        ghost var was := events;
        VisitEntry(current, rest[0]);
        PrefixChain(old(events), was, events);
        rest := rest[1..];
      }
      NoneExpected(from, dest, rel);
    }

    /** What one answer of `getdents` brings. */
    method VisitAnswer(current: string, answer: Batch)
      requires Valid() && from <= current && Made(events, dest, RelOf(from, current))
      requires answer.Entries? ==> NamesOkAmong(answer.entries)
      modifies this
      ensures Valid() && old(events) <= events
      ensures Everything() == old(Everything()) + multiset(ExpectAnswer(from, dest, answer, RelOf(from, current)))
      ensures |directoryStack| - |old(directoryStack)| <= |events| - |old(events)|
    {
      hide ExpectEntries, Coming, HasParent, ItemOk, Made, Everything;
      if answer.Failed? {
        Emit(Report);
      } else {
        VisitBatch(current, answer.entries);
      }
    }

    /** The loop over `getdents` calls. */
    method VisitAnswers(current: string, answers: seq<Batch>)
      requires Valid() && from <= current && Made(events, dest, RelOf(from, current)) && NamesOkIn(answers)
      modifies this
      ensures Valid() && old(events) <= events
      ensures Everything() == old(Everything()) + ToCome(from, dest, answers, false, true, RelOf(from, current))
      ensures |directoryStack| - |old(directoryStack)| <= |events| - |old(events)|
    {
      hide *;
      ghost var rel := RelOf(from, current);
      ghost var all := old(Everything()) + ToCome(from, dest, answers, false, true, rel);
      var rest := answers;
      var written := false;
      var more := true;
      while more && rest != []
        invariant Valid() && old(events) <= events && NamesOkIn(rest)
        invariant Everything() + ToCome(from, dest, rest, written, more, rel) == all
        invariant |directoryStack| - |old(directoryStack)| <= |events| - |old(events)|
        decreases |rest|
      {
        MadeLasts(old(events), events, dest, rel);
        FirstNames(rest);
        SplitBatches(from, dest, rest, written, rel);
        ghost var was := events;
        var answer := rest[0];
        WhetherGoesOn(answer, written);
        if answer.Entries? {
          written := answer.entries != [];
        }
        VisitAnswer(current, answer);
        PrefixChain(old(events), was, events);
        rest := rest[1..];
        more := written;
      }
      NothingExpected(from, dest, rest, written, more, rel);
    }

    /** One directory off the stack. */
    method VisitDirectory(current: string, d: Node)
      requires Valid() && from <= current && Made(events, dest, RelOf(from, current)) && d.Dir? && NamesOk(d)
      modifies this
      ensures Valid() && old(events) <= events
      ensures Everything() == old(Everything()) + multiset(ExpectDir(from, dest, d, RelOf(from, current)))
      ensures |directoryStack| - |old(directoryStack)| <= |events| - |old(events)|
    {
      hide Coming, HasParent, ItemOk, Made, Everything, RelOf, NamesOk, NamesOkIn, ToCome;
      if d.opens {
        DirectoryNames(d);
        DirectoryContents(from, dest, d, RelOf(from, current));
        VisitAnswers(current, d.batches);
      } else {
        Emit(Report);
      }
    }

    /** `addRecursiveCopy` from the filled stack on. It ends; what it emits is what is expected, each
        thing as often as expected; and every directory is made before anything is put into it. */
    method Run()
      requires Valid()
      modifies this
      ensures Valid() && directoryStack == [] && old(events) <= events
      ensures multiset(events) == old(Everything())
      ensures forall k :: 1 <= k < |events| ==> HasParent(events, k)
    {
      while directoryStack != []
        invariant Valid() && Everything() == old(Everything()) && old(events) <= events
        invariant |events| <= |old(Everything())|
        decreases |old(Everything())| - |events| + |directoryStack|
      {
        var n := |directoryStack| - 1;
        var current := directoryStack[n];
        assert ItemOk(current);
        directoryStack := directoryStack[..n];
        VisitDirectory(current.path, current.dir);
        SizeOfEvents(events, Coming(from, dest, directoryStack), old(Everything()));
      }
    }
  }

  lemma SizeOfEvents(events: seq<Event>, rest: multiset<Event>, all: multiset<Event>)
    requires multiset(events) + rest == all
    ensures |events| <= |all|
  {
    assert |multiset(events)| == |events|;
    assert |multiset(events) + rest| == |multiset(events)| + |rest|;
  }

  lemma MadeStays(events: seq<Event>, v: Event, dest: string, rel: string)
    requires Made(events, dest, rel)
    ensures Made(events + [v], dest, rel)
  {
    var j :| 0 <= j < |events| && events[j].MakeDir? && Slashed(events[j].path) == dest + rel;
    assert (events + [v])[j] == events[j];
  }

  lemma NoneExpected(from: string, dest: string, rel: string)
    ensures ExpectEntries(from, dest, [], rel) == []
  {
  }

  lemma SplitEntries(from: string, dest: string, es: seq<Entry>, rel: string)
    requires es != []
    ensures multiset(ExpectEntries(from, dest, es, rel))
      == multiset(ExpectEntry(from, dest, es[0], rel)) + multiset(ExpectEntries(from, dest, es[1..], rel))
  {
    hide ExpectEntry;
  }

  /** What one answer of `getdents` stands for. */
  function ExpectAnswer(from: string, dest: string, answer: Batch, rel: string): seq<Event> {
    match answer
    case Failed => [Report]
    case Entries(es) => ExpectEntries(from, dest, es, rel)
  }

  /** What the answers still to come stand for, if the loop is to go on. */
  function ToCome(from: string, dest: string, bs: seq<Batch>, written: bool, more: bool, rel: string): multiset<Event> {
    if more then multiset(ExpectBatches(from, dest, bs, written, rel)) else multiset{}
  }

  lemma SplitBatches(from: string, dest: string, bs: seq<Batch>, written: bool, rel: string)
    requires bs != []
    ensures var goOn := Continues(bs[0], written);
      ToCome(from, dest, bs, written, true, rel)
        == multiset(ExpectAnswer(from, dest, bs[0], rel)) + ToCome(from, dest, bs[1..], goOn, goOn, rel)
  {
    if bs[0].Entries? {
      NoneExpected(from, dest, rel);
      hide ExpectEntries;
    }
  }

  lemma WhetherGoesOn(answer: Batch, written: bool)
    ensures Continues(answer, written) == if answer.Entries? then answer.entries != [] else written
  {
  }

  lemma DirectoryContents(from: string, dest: string, d: Node, rel: string)
    requires d.Dir? && d.opens
    ensures ToCome(from, dest, d.batches, false, true, rel) == multiset(ExpectDir(from, dest, d, rel))
  {
  }

  lemma DirectoryNames(d: Node)
    requires d.Dir? && NamesOk(d)
    ensures NamesOkIn(d.batches)
  {
  }

  lemma FirstNames(bs: seq<Batch>)
    requires bs != [] && NamesOkIn(bs)
    ensures bs[0].Entries? ==> NamesOkAmong(bs[0].entries)
    ensures NamesOkIn(bs[1..])
  {
  }

  lemma NothingExpected(from: string, dest: string, bs: seq<Batch>, written: bool, more: bool, rel: string)
    requires more ==> bs == []
    ensures ToCome(from, dest, bs, written, more, rel) == multiset{}
  {
  }

  lemma ParentStays(events: seq<Event>, v: Event, k: nat)
    requires k < |events| && HasParent(events, k)
    ensures HasParent(events + [v], k)
  {
    if Placed(events[k]) {
      var j :| 0 <= j < k && events[j].MakeDir? && Inside(events[j].path, events[k].path);
      assert (events + [v])[j] == events[j];
    }
  }

  lemma PrefixChain(a: seq<Event>, b: seq<Event>, c: seq<Event>)
    requires a <= b && b <= c
    ensures a <= c
  {
  }

  lemma MadeLasts(was: seq<Event>, events: seq<Event>, dest: string, rel: string)
    requires Made(was, dest, rel) && was <= events
    ensures Made(events, dest, rel)
  {
    var j :| 0 <= j < |was| && was[j].MakeDir? && Slashed(was[j].path) == dest + rel;
    assert events[j] == was[j];
  }

  lemma InsideParent(events: seq<Event>, dest: string, rel: string, name: string)
    requires Made(events, dest, rel) && name != "" && '/' !in name
    ensures exists j :: 0 <= j < |events| && events[j].MakeDir? && Inside(events[j].path, dest + rel + name)
  {
    var j :| 0 <= j < |events| && events[j].MakeDir? && Slashed(events[j].path) == dest + rel;
    var path := dest + rel + name;
    assert path == (dest + rel) + name;
    assert path[|dest + rel|..] == name;
    assert Inside(events[j].path, path);
  }

  lemma MadeNow(events: seq<Event>, dest: string, rel: string, name: string)
    requires events != [] && events[|events| - 1] == MakeDir(dest + rel + name) && name != "" && '/' !in name
    ensures Made(events, dest, rel + name + "/")
  {
    var path := dest + rel + name;
    assert path[|path| - 1] == name[|name| - 1];
    assert Slashed(path) == path + "/" == dest + (rel + name + "/");
  }

  lemma EventsOfWalk(from: string, dest: string, root: Node, events: seq<Event>, v: Event)
    requires NamesOk(root)
    requires multiset(events) == multiset([MakeDir(dest)]) + multiset(ExpectDir(from, dest, root, ""))
    ensures v in events <==> v == MakeDir(dest) || Due(from, dest, root, v)
    ensures Placed(v) ==> multiset(events)[v] <= 1
    ensures v.Report? ==> multiset(events)[v] == TroublesIn(root)
  {
    hide ExpectDir, Due, NamesOk, TroublesIn;
    var expected := ExpectDir(from, dest, root, "");
    assert v in events <==> multiset(events)[v] > 0;
    EventsAreDue(from, dest, root, v);
    CountJoin(v, expected, []);
    if v.Report? {
      ReportsIn(from, dest, root, "");
    } else if v in expected {
      StrictlyInside(from, dest, root, v);
      OnceEach(from, dest, root, "", v);
    }
  }

  lemma StrictlyInside(from: string, dest: string, root: Node, v: Event)
    requires Placed(v) && v in ExpectDir(from, dest, root, "") && NamesOk(root)
    ensures |dest| < |v.path|
  {
    hide ExpectDir, Leads;
    var path, e := OriginOfDir(from, dest, root, "", v);
    var first :| first in Listed(root.batches, false) && Leads(first, path, e);
    ListedNameOk(root.batches, false, first);
    LeadsFirst(first, path, e);
  }

  lemma LeadsFirst(first: Entry, path: seq<string>, e: Entry)
    requires path != [] && Leads(first, path, e) && first.name != ""
    ensures Join(path) != ""
  {
  }

  /** `addRecursiveCopy`: it ends, as every directory's answers do (see `ListingEnds`). What it emits is
      what is due for the tree: a copy for each regular file, a link for each link, a directory for each
      directory, each once and at the same place below the destination as below the source, and one
      report for each thing that goes wrong. Every directory is made before anything is put into it. */
  method AddRecursiveCopy(from: string, dest: string, root: Node) returns (events: seq<Event>)
    requires from != "" && dest != "" && root.Dir? && NamesOk(root)
    ensures var source := if from[|from| - 1] == '/' then from else from + "/";
      var target := if dest[|dest| - 1] == '/' then dest else dest + "/";
      && events != [] && events[0] == MakeDir(target)
      && (forall v :: v in events <==> v == MakeDir(target) || Due(source, target, root, v))
    ensures forall v: Event :: Placed(v) ==> multiset(events)[v] <= 1
    ensures multiset(events)[Report] == TroublesIn(root)
    ensures forall k :: 1 <= k < |events| ==> HasParent(events, k)
    ensures multiset(events) == multiset([MakeDir(Slashed(dest))]) + multiset(ExpectDir(Slashed(from), Slashed(dest), root, ""))
  {
    hide HasParent, ExpectDir, NamesOk, Due, TroublesIn;
    var walk := new Walk(from, dest, root);
    walk.Run();
    events := walk.events;
    forall v: Event
      ensures v in events <==> v == MakeDir(Slashed(dest)) || Due(Slashed(from), Slashed(dest), root, v)
      ensures Placed(v) ==> multiset(events)[v] <= 1
      ensures v.Report? ==> multiset(events)[v] == TroublesIn(root)
    {
      EventsOfWalk(Slashed(from), Slashed(dest), root, events, v);
    }
  }
}
