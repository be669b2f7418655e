/**
 The readers of git's machine output, against the formats git prints:
 `cat-file --batch` (gitformat of git-cat-file, "BATCH OUTPUT") and
 `status --porcelain=v1 -z` (git-status, "Pathname Format Notes and -z").
 */
module GitUtil {
  import opened Wrappers
  import opened Octets

  // ---- cat-file --batch --------------------------------------------------

  /** " missing" */
  const MISSING: Bytes := [32, 109, 105, 115, 115, 105, 110, 103]

  /** A blob as git holds it: the object name and type it is announced by, and
      its content. */
  datatype Blob = Blob(name: Bytes, kind: Bytes, content: Bytes)

  predicate PlainHeader(b: Blob) {
    LF !in b.name && LF !in b.kind
  }

  /** The paths of one revision. */
  type Tree = map<Bytes, Blob>

  function Header(b: Blob): Bytes {
    b.name + [SPACE] + b.kind + [SPACE] + Decimal(|b.content|)
  }

  /** What git prints for one request: the request echoed when nothing is there,
      the object's header and its content when something is. */
  function Response(tree: Tree, request: Bytes, path: Bytes): Bytes {
    if path in tree then Header(tree[path]) + [LF] + (tree[path].content + [LF])
    else request + MISSING + [LF]
  }

  function Request(revision: Bytes, path: Bytes): Bytes {
    revision + [58] + path
  }

  function Batch(tree: Tree, revision: Bytes, wanted: seq<Bytes>): Bytes {
    if wanted == [] then []
    else Response(tree, Request(revision, wanted[0]), wanted[0]) + Batch(tree, revision, wanted[1..])
  }

  predicate EndsWith(s: Bytes, t: Bytes) {
    |s| >= |t| && s[|s| - |t|..] == t
  }

  /** `int(header.rsplit(b" ", 1)[1])` */
  function SizeIn(header: Bytes): Result<nat> {
    match AfterLast(header, SPACE)
    case None => Err("list index out of range")
    case Some(text) =>
      match ParseDecimal(text)
      case None => Err("invalid literal for int()")
      case Some(size) => Ok(size)
  }

  function FirstLine(s: Bytes): Bytes {
    s[..IndexOf(s, LF)]
  }

  /** What a header line announces: nothing there, or a content of some size. */
  function Announced(header: Bytes): Result<Option<nat>> {
    if EndsWith(header, MISSING) then Ok(None)
    else
      match SizeIn(header)
      case Err(e) => Err(e)
      case Ok(size) => Ok(Some(size))
  }

  /** One answer at the head of the output: the content, if the path is there,
      and how much of the output it takes. */
  function Answer(out: Bytes): Result<(Option<Bytes>, nat)> {
    var end := IndexOf(out, LF);
    if end == |out| then Err("subsection not found") else After(out, end, Announced(FirstLine(out)))
  }

  /** What follows a header line that ends at an index. */
  function After(out: Bytes, end: nat, said: Result<Option<nat>>): Result<(Option<Bytes>, nat)>
    requires end < |out|
  {
    match said
    case Err(e) => Err(e)
    case Ok(None) => Ok((None, end + 1))
    case Ok(Some(size)) => Ok((Some(Take(out[end + 1..], size)), end + 1 + size + 1))
  }

  function Put(blobs: map<Bytes, Bytes>, path: Bytes, content: Option<Bytes>): map<Bytes, Bytes> {
    if content.Some? then blobs[path := content.value] else blobs
  }

  /** The answers in the order of the requests. */
  function Walk(wanted: seq<Bytes>, out: Bytes, blobs: map<Bytes, Bytes>): Result<map<Bytes, Bytes>> {
    if wanted == [] then Ok(blobs)
    else
      match Answer(out)
      case Err(e) => Err(e)
      case Ok(a) => Walk(wanted[1..], Drop(out, a.1), Put(blobs, wanted[0], a.0))
  }

  /** The answer at an offset, and the offset after it. */
  function AnswerAt(out: Bytes, from: nat): Result<(Option<Bytes>, nat)> {
    match Answer(Drop(out, from))
    case Err(e) => Err(e)
    case Ok(a) => Ok((a.0, from + a.1))
  }

  method ReadAnswer(out: Bytes, from: nat) returns (r: Result<(Option<Bytes>, nat)>)
    ensures r == AnswerAt(out, from)
  {
    var left := Drop(out, from);
    var end := IndexOf(left, LF);
    if end == |left| {
      return Err("subsection not found");
    }
    var header, at := left[..end], from + end + 1;
    var said := Announced(header);
    if said.Err? {
      return Err(said.error);
    }
    if said.value.None? {
      return Ok((None, at));
    }
    var size := said.value.value;
    DropTwice(out, from, end + 1);
    return Ok((Some(Take(Drop(out, at), size)), at + size + 1));
  }

  /** What is still to come from request `i` and offset `at` on. */
  function WalkFrom(wanted: seq<Bytes>, i: nat, out: Bytes, at: nat, blobs: map<Bytes, Bytes>): Result<map<Bytes, Bytes>>
    requires i <= |wanted|
  {
    Walk(wanted[i..], Drop(out, at), blobs)
  }

  lemma WalkAt(wanted: seq<Bytes>, i: nat, out: Bytes, at: nat, blobs: map<Bytes, Bytes>,
               a: Result<(Option<Bytes>, nat)>)
    requires i < |wanted| && a == AnswerAt(out, at)
    ensures a.Err? ==> WalkFrom(wanted, i, out, at, blobs) == Err(a.error)
    ensures a.Ok? ==>
              WalkFrom(wanted, i, out, at, blobs)
                == WalkFrom(wanted, i + 1, out, a.value.1, Put(blobs, wanted[i], a.value.0))
  {
    assert wanted[i..][1..] == wanted[i + 1..];
    if a.Ok? {
      DropTwice(out, at, a.value.1 - at);
    }
  }

  lemma WalkEnds(wanted: seq<Bytes>, out: Bytes, at: nat, blobs: map<Bytes, Bytes>)
    ensures WalkFrom(wanted, 0, out, 0, blobs) == Walk(wanted, out, blobs)
    ensures WalkFrom(wanted, |wanted|, out, at, blobs) == Ok(blobs)
  {
    assert wanted[0..] == wanted && Drop(out, 0) == out;
  }

  /** Request `i` read: the blobs and the offset after it, with as much still to
      come as before. */
  method ReadNext(wanted: seq<Bytes>, i: nat, out: Bytes, at: nat, blobs: map<Bytes, Bytes>)
    returns (r: Result<(map<Bytes, Bytes>, nat)>)
    requires i < |wanted|
    ensures r.Err? ==> WalkFrom(wanted, i, out, at, blobs) == Err(r.error)
    ensures r.Ok? ==> WalkFrom(wanted, i, out, at, blobs) == WalkFrom(wanted, i + 1, out, r.value.1, r.value.0)
  {
    var a := ReadAnswer(out, at);
    WalkAt(wanted, i, out, at, blobs, a);
    if a.Err? {
      return Err(a.error);
    }
    return Ok((Put(blobs, wanted[i], a.value.0), a.value.1));
  }

  /** The reader: an offset into the output, moved past each answer. */
  method CatBlobs(wanted: seq<Bytes>, out: Bytes) returns (r: Result<map<Bytes, Bytes>>)
    ensures r == Walk(wanted, out, map[])
  {
    if wanted == [] {
      return Ok(map[]);
    }
    var blobs: map<Bytes, Bytes> := map[];
    var at: nat := 0;
    ghost var all := Walk(wanted, out, map[]);
    WalkEnds(wanted, out, 0, blobs);
    for i := 0 to |wanted|
      invariant WalkFrom(wanted, i, out, at, blobs) == all
    {
      var next := ReadNext(wanted, i, out, at, blobs);
      if next.Err? {
        return Err(next.error);
      }
      blobs, at := next.value.0, next.value.1;
    }
    WalkEnds(wanted, out, at, blobs);
    return Ok(blobs);
  }

  lemma DropTwice(s: Bytes, m: nat, n: nat)
    ensures Drop(Drop(s, m), n) == Drop(s, m + n)
  {
  }

  lemma HeaderIsNotMissing(b: Blob)
    ensures !EndsWith(Header(b), MISSING)
  {
    var h, d := Header(b), Decimal(|b.content|);
    assert h[|h| - 1] == d[|d| - 1] && IsDigit(h[|h| - 1]);
    if EndsWith(h, MISSING) {
      assert false;
    }
  }

  lemma HeaderSize(b: Blob)
    ensures SizeIn(Header(b)) == Ok(|b.content|)
  {
    var d := Decimal(|b.content|);
    assert SPACE !in d;
    AfterLastOf(b.name + [SPACE] + b.kind, SPACE, d);
    DecimalRoundTrip(|b.content|);
  }

  lemma HeaderLine(b: Blob)
    requires PlainHeader(b)
    ensures LF !in Header(b)
  {
    assert LF !in Decimal(|b.content|);
  }

  /** The answer for a path that is there is read to its end, whatever bytes the
      content holds. */
  lemma ReadsFound(b: Blob, rest: Bytes)
    requires PlainHeader(b)
    ensures var response := Header(b) + [LF] + (b.content + [LF]);
            Answer(response + rest) == Ok((Some(b.content), |response|)) && Drop(response + rest, |response|) == rest
  {
    var h, tail := Header(b), b.content + [LF] + rest;
    var out := Header(b) + [LF] + (b.content + [LF]) + rest;
    assert out == h + [LF] + tail;
    HeaderLine(b);
    IndexAfter(h, LF, tail);
    assert out[..|h|] == h && out[|h| + 1..] == tail;
    HeaderIsNotMissing(b);
    HeaderSize(b);
    assert Take(tail, |b.content|) == b.content;
  }

  lemma ReadsMissing(request: Bytes, rest: Bytes)
    requires LF !in request
    ensures var response := request + MISSING + [LF];
            Answer(response + rest) == Ok((None, |response|)) && Drop(response + rest, |response|) == rest
  {
    var h := request + MISSING;
    var out := h + [LF] + rest;
    assert LF !in MISSING;
    IndexAfter(h, LF, rest);
    assert out[..|h|] == h;
    assert h[|h| - |MISSING|..] == MISSING;
  }

  /** The contents a caller is owed: the wanted paths that are there. */
  function Contents(tree: Tree, wanted: seq<Bytes>): map<Bytes, Bytes> {
    map p | p in wanted && p in tree :: tree[p].content
  }

  predicate Readable(tree: Tree, revision: Bytes, wanted: seq<Bytes>) {
    && (forall p | p in tree :: PlainHeader(tree[p]))
    && (forall p | p in wanted && p !in tree :: LF !in Request(revision, p))
  }

  /** The first answer read, whatever follows in the output. */
  lemma WalkOne(tree: Tree, revision: Bytes, wanted: seq<Bytes>, rest: Bytes, blobs: map<Bytes, Bytes>)
    requires wanted != [] && Readable(tree, revision, wanted[..1])
    ensures Walk(wanted, Response(tree, Request(revision, wanted[0]), wanted[0]) + rest, blobs)
         == Walk(wanted[1..], rest, if wanted[0] in tree then blobs[wanted[0] := tree[wanted[0]].content] else blobs)
  {
    var p := wanted[0];
    assert p in wanted[..1];
    if p in tree {
      ReadsFound(tree[p], rest);
    } else {
      ReadsMissing(Request(revision, p), rest);
    }
  }

  lemma ContentsOne(tree: Tree, wanted: seq<Bytes>, blobs: map<Bytes, Bytes>)
    requires wanted != []
    ensures blobs + Contents(tree, wanted)
         == (if wanted[0] in tree then blobs[wanted[0] := tree[wanted[0]].content] else blobs)
            + Contents(tree, wanted[1..])
  {
    assert forall q :: q in wanted <==> q == wanted[0] || q in wanted[1..];
  }

  /** A readable stretch of requests is read, whatever is asked for after it and
      whatever the output holds after its answers. */
  lemma {:induction false} WalkReads(tree: Tree, revision: Bytes, a: seq<Bytes>, b: seq<Bytes>, rest: Bytes,
                                     blobs: map<Bytes, Bytes>)
    requires Readable(tree, revision, a)
    ensures Walk(a + b, Batch(tree, revision, a) + rest, blobs) == Walk(b, rest, blobs + Contents(tree, a))
    decreases |a|
  {
    if a == [] {
      assert a + b == b && Batch(tree, revision, a) + rest == rest;
      assert blobs + Contents(tree, a) == blobs;
    } else {
      var first, more := Response(tree, Request(revision, a[0]), a[0]), Batch(tree, revision, a[1..]);
      assert (a + b)[0] == a[0] && (a + b)[1..] == a[1..] + b && (a + b)[..1] == a[..1];
      assert first + more + rest == first + (more + rest);
      WalkOne(tree, revision, a + b, more + rest, blobs);
      ContentsOne(tree, a, blobs);
      WalkReads(tree, revision, a[1..], b, rest,
                if a[0] in tree then blobs[a[0] := tree[a[0]].content] else blobs);
    }
  }

  /** Reading inverts git's framing: for any contents, newlines included, and any
      mix of present and missing paths, the result is the contents wanted.  Only
      a missing request is echoed, so only it must hold no newline. */
  lemma BlobsRoundTrip(tree: Tree, revision: Bytes, wanted: seq<Bytes>)
    requires Readable(tree, revision, wanted)
    ensures Walk(wanted, Batch(tree, revision, wanted), map[]) == Ok(Contents(tree, wanted))
  {
    WalkReads(tree, revision, wanted, [], [], map[]);
    assert wanted + [] == wanted && Batch(tree, revision, wanted) + [] == Batch(tree, revision, wanted);
    assert map[] + Contents(tree, wanted) == Contents(tree, wanted);
  }

  // A missing path with a newline in it.

  lemma {:induction false} BatchJoins(tree: Tree, revision: Bytes, a: seq<Bytes>, b: seq<Bytes>)
    ensures Batch(tree, revision, a + b) == Batch(tree, revision, a) + Batch(tree, revision, b)
    decreases |a|
  {
    if a == [] {
      assert a + b == b && [] + Batch(tree, revision, b) == Batch(tree, revision, b);
    } else {
      assert (a + b)[0] == a[0] && (a + b)[1..] == a[1..] + b;
      BatchJoins(tree, revision, a[1..], b);
      var first := Response(tree, Request(revision, a[0]), a[0]);
      assert first + (Batch(tree, revision, a[1..]) + Batch(tree, revision, b))
          == first + Batch(tree, revision, a[1..]) + Batch(tree, revision, b);
    }
  }

  /** The echo is cut at its first newline: that line alone is taken for the
      answer. */
  lemma EchoIsCut(request: Bytes, rest: Bytes)
    requires LF in request
    ensures var out := request + MISSING + [LF] + rest;
            IndexOf(out, LF) < |out| && FirstLine(out) == FirstLine(request)
  {
    var out, tail := request + MISSING + [LF] + rest, MISSING + [LF] + rest;
    assert out == request + tail;
    IndexBefore(request, LF, tail);
  }

  predicate NoContent(a: Result<(Option<Bytes>, nat)>, used: nat) {
    a == Ok((None, used))
  }

  /** An error, or a content for the path. */
  predicate NotMissing(a: Result<(Option<Bytes>, nat)>) {
    a.Ok? ==> a.value.0.Some?
  }

  lemma AfterSaid(out: Bytes, end: nat, said: Result<Option<nat>>)
    requires end < |out|
    ensures said == Ok(None) ==> NoContent(After(out, end, said), end + 1)
    ensures said != Ok(None) ==> NotMissing(After(out, end, said))
    ensures said.Err? ==> After(out, end, said).Err?
  {
  }

  lemma MissingLine(out: Bytes)
    requires IndexOf(out, LF) < |out| && EndsWith(FirstLine(out), MISSING)
    ensures NoContent(Answer(out), IndexOf(out, LF) + 1)
  {
    AfterSaid(out, IndexOf(out, LF), Ok(None));
  }

  lemma OtherLine(out: Bytes)
    requires IndexOf(out, LF) < |out| && !EndsWith(FirstLine(out), MISSING)
    ensures NotMissing(Answer(out))
    ensures SizeIn(FirstLine(out)).Err? ==> Answer(out).Err?
  {
    var said := Announced(FirstLine(out));
    assert said != Ok(None) && (SizeIn(FirstLine(out)).Err? ==> said.Err?);
    AfterSaid(out, IndexOf(out, LF), said);
  }

  lemma {:induction false} BlobsStay(wanted: seq<Bytes>, out: Bytes, blobs: map<Bytes, Bytes>)
    ensures Walk(wanted, out, blobs).Ok? ==> blobs.Keys <= Walk(wanted, out, blobs).value.Keys
    decreases |wanted|
  {
    if wanted != [] && Answer(out).Ok? {
      var (content, used) := Answer(out).value;
      BlobsStay(wanted[1..], Drop(out, used), Put(blobs, wanted[0], content));
    }
  }

  lemma WalkPasses(wanted: seq<Bytes>, out: Bytes, blobs: map<Bytes, Bytes>)
    requires wanted != [] && NoContent(Answer(out), IndexOf(out, LF) + 1)
    ensures Walk(wanted, out, blobs) == Walk(wanted[1..], Drop(out, IndexOf(out, LF) + 1), blobs)
  {
  }

  /** An answer with a content puts the path in, and nothing takes it out. */
  lemma WalkPutsIn(p: Bytes, b: seq<Bytes>, out: Bytes, blobs: map<Bytes, Bytes>)
    requires NotMissing(Answer(out))
    ensures var r := Walk([p] + b, out, blobs);
            (r.Ok? ==> p in r.value) && (Answer(out).Err? ==> r.Err?)
  {
    assert ([p] + b)[0] == p && ([p] + b)[1..] == b;
    if Answer(out).Ok? {
      var (content, used) := Answer(out).value;
      BlobsStay(b, Drop(out, used), Put(blobs, p, content));
    }
  }

  /** Where the walk stands when it comes to a path that is missing. */
  lemma WalkToMissing(tree: Tree, revision: Bytes, a: seq<Bytes>, p: Bytes, b: seq<Bytes>)
    requires Readable(tree, revision, a) && p !in tree
    ensures Walk(a + ([p] + b), Batch(tree, revision, a + ([p] + b)), map[])
         == Walk([p] + b, Request(revision, p) + MISSING + [LF] + Batch(tree, revision, b), Contents(tree, a))
  {
    BatchJoins(tree, revision, a, [p] + b);
    assert ([p] + b)[0] == p && ([p] + b)[1..] == b;
    WalkReads(tree, revision, a, [p] + b, Batch(tree, revision, [p] + b), map[]);
    assert map[] + Contents(tree, a) == Contents(tree, a);
  }

  /** At any place in the list, a missing path whose first line does not end in
      " missing" is never read right: the reader raises when that line ends in no
      number, and otherwise, if it returns, it makes up a content for the path. */
  lemma NewlineBreaks(tree: Tree, revision: Bytes, a: seq<Bytes>, p: Bytes, b: seq<Bytes>)
    requires Readable(tree, revision, a) && p !in tree
    requires LF in Request(revision, p) && !EndsWith(FirstLine(Request(revision, p)), MISSING)
    ensures var wanted := a + ([p] + b);
            var r := Walk(wanted, Batch(tree, revision, wanted), map[]);
            && r != Ok(Contents(tree, wanted))
            && (SizeIn(FirstLine(Request(revision, p))).Err? ==> r.Err?)
            && (r.Ok? ==> p in r.value)
  {
    var request, rest := Request(revision, p), Batch(tree, revision, b);
    var out := request + MISSING + [LF] + rest;
    WalkToMissing(tree, revision, a, p, b);
    EchoIsCut(request, rest);
    OtherLine(out);
    WalkPutsIn(p, b, out, Contents(tree, a));
  }

  /** A missing path asked for last, after requests that are read: the result is
      right if and only if the path's request holds no newline, or its first line
      ends in " missing". */
  lemma MissingLast(tree: Tree, revision: Bytes, a: seq<Bytes>, p: Bytes)
    requires Readable(tree, revision, a) && p !in tree
    ensures var r := Request(revision, p);
            Walk(a + [p], Batch(tree, revision, a + [p]), map[]) == Ok(Contents(tree, a + [p]))
            <==> LF !in r || EndsWith(FirstLine(r), MISSING)
  {
    var request := Request(revision, p);
    assert [p] + [] == [p] && Contents(tree, a + [p]) == Contents(tree, a);
    if LF !in request {
      assert Readable(tree, revision, a + [p]);
      BlobsRoundTrip(tree, revision, a + [p]);
    } else if EndsWith(FirstLine(request), MISSING) {
      var out := request + MISSING + [LF] + Batch(tree, revision, []);
      WalkToMissing(tree, revision, a, p, []);
      EchoIsCut(request, Batch(tree, revision, []));
      MissingLine(out);
      WalkPasses([p], out, Contents(tree, a));
    } else {
      NewlineBreaks(tree, revision, a, p, []);
    }
  }

  /** The first line of a text ends in " missing". */
  predicate StartsMissing(text: Bytes) {
    IndexOf(text, LF) < |text| && EndsWith(FirstLine(text), MISSING)
  }

  /** The text after its first line. */
  function NextLines(text: Bytes): Bytes {
    Drop(text, IndexOf(text, LF) + 1)
  }

  /** The first `n` lines of a text all end in " missing". */
  predicate MissingLines(text: Bytes, n: nat)
    decreases n
  {
    n == 0
    || (StartsMissing(text) && MissingLines(NextLines(text), n - 1))
  }

  /** Reading these requests from this output leaves nothing. */
  predicate ReadsNothing(wanted: seq<Bytes>, out: Bytes) {
    Walk(wanted, out, map[]) == Ok(map[])
  }

  lemma NothingFrom(wanted: seq<Bytes>, out: Bytes)
    requires wanted != []
    ensures ReadsNothing(wanted, out) <==> StartsMissing(out) && ReadsNothing(wanted[1..], NextLines(out))
  {
    if StartsMissing(out) {
      MissingLine(out);
      WalkPasses(wanted, out, map[]);
    } else if IndexOf(out, LF) < |out| {
      OtherLine(out);
      WalkPutsIn(wanted[0], wanted[1..], out, map[]);
      assert [wanted[0]] + wanted[1..] == wanted;
    }
  }

  /** Whatever takes a text apart line by line, each ending in " missing", takes
      what `MissingLines` says. */
  lemma {:induction false} LineByLine(wanted: seq<Bytes>, out: Bytes, takes: (seq<Bytes>, Bytes) -> bool)
    requires forall text :: takes([], text)
    requires forall w, text | w != [] :: takes(w, text) <==> StartsMissing(text) && takes(w[1..], NextLines(text))
    ensures takes(wanted, out) <==> MissingLines(out, |wanted|)
    decreases |wanted|
  {
    if wanted != [] {
      LineByLine(wanted[1..], NextLines(out), takes);
    }
  }

  lemma WalkNothing(wanted: seq<Bytes>, out: Bytes)
    ensures ReadsNothing(wanted, out) <==> MissingLines(out, |wanted|)
  {
    var takes := (w: seq<Bytes>, text: Bytes) => ReadsNothing(w, text);
    forall w, text | w != []
      ensures takes(w, text) <==> StartsMissing(text) && takes(w[1..], NextLines(text))
    {
      NothingFrom(w, text);
    }
    LineByLine(wanted, out, takes);
  }

  /** The requests of paths that are all missing, as git echoes them. */
  function Echoes(revision: Bytes, wanted: seq<Bytes>): Bytes {
    if wanted == [] then []
    else Request(revision, wanted[0]) + MISSING + [LF] + Echoes(revision, wanted[1..])
  }

  /** When none of the paths is there, the result is right if and only if as many
      lines of the echoed requests as there are paths end in " missing". */
  lemma {:induction false} NoneThere(tree: Tree, revision: Bytes, wanted: seq<Bytes>)
    requires forall p | p in wanted :: p !in tree
    ensures Batch(tree, revision, wanted) == Echoes(revision, wanted)
    ensures Walk(wanted, Batch(tree, revision, wanted), map[]) == Ok(Contents(tree, wanted))
            <==> MissingLines(Echoes(revision, wanted), |wanted|)
  {
    if wanted != [] {
      NoneThere(tree, revision, wanted[1..]);
    }
    assert Contents(tree, wanted) == map[];
    WalkNothing(wanted, Batch(tree, revision, wanted));
  }

  // ---- status --porcelain=v1 -z ------------------------------------------

  const R: Byte := 82
  const C: Byte := 67

  /** One changed path: the two status letters, the path, and where a rename or
      a copy came from. */
  datatype Change = Change(x: Byte, y: Byte, path: Bytes, origin: Option<Bytes>)

  predicate Moved(x: Byte, y: Byte) { x == R || x == C || y == R || y == C }

  /** Paths hold no NUL and are not empty; renames and copies, and only they,
      name their origin. */
  predicate WellFormed(c: Change) {
    && c.x != NUL && c.y != NUL && c.path != [] && NUL !in c.path
    && (c.origin.Some? <==> Moved(c.x, c.y))
    && (c.origin.Some? ==> NUL !in c.origin.value)
  }

  function Record(c: Change): Bytes {
    [c.x, c.y, SPACE] + c.path
  }

  function Status(changes: seq<Change>): Bytes {
    if changes == [] then []
    else
      var c := changes[0];
      Record(c) + [NUL] + ((if c.origin.Some? then c.origin.value + [NUL] else []) + Status(changes[1..]))
  }

  function Paths(changes: seq<Change>): seq<Bytes> {
    if changes == [] then []
    else
      var c := changes[0];
      [c.path] + (if c.origin.Some? then [c.origin.value] else []) + Paths(changes[1..])
  }

  function WalkFields(fields: seq<Bytes>): Result<seq<Bytes>>
    decreases |fields|
  {
    if fields == [] then Ok([])
    else
      var record := fields[0];
      if |record| < 4 then WalkFields(fields[1..])
      else if !Moved(record[0], record[1]) then Prepend([record[3..]], WalkFields(fields[1..]))
      else if |fields| == 1 then Err("list index out of range")
      else Prepend([record[3..], fields[1]], WalkFields(fields[2..]))
  }

  function Prepend(paths: seq<Bytes>, r: Result<seq<Bytes>>): Result<seq<Bytes>> {
    match r
    case Ok(more) => Ok(paths + more)
    case Err(e) => Err(e)
  }

  method ChangedPaths(out: Bytes) returns (r: Result<seq<Bytes>>)
    ensures r == WalkFields(Split(out, NUL))
  {
    var fields := Split(out, NUL);
    var paths: seq<Bytes> := [];
    var i := 0;
    assert fields[0..] == fields;
    PrependNone(WalkFields(fields));
    while i < |fields|
      invariant 0 <= i <= |fields|
      invariant WalkFields(fields) == Prepend(paths, WalkFields(fields[i..]))
    {
      ghost var left := fields[i..];
      assert left[1..] == fields[i + 1..];
      var record := fields[i];
      i := i + 1;
      if |record| < 4 {
        continue;
      }
      ghost var was := paths;
      paths := paths + [record[3..]];
      if Moved(record[0], record[1]) {
        if i >= |fields| {
          return Err("list index out of range");
        }
        assert left[2..] == fields[i + 1..];
        paths := paths + [fields[i]];
        i := i + 1;
        assert paths == was + [record[3..], fields[i - 1]];
        PrependTwice(was, [record[3..], fields[i - 1]], WalkFields(fields[i..]));
      } else {
        PrependTwice(was, [record[3..]], WalkFields(fields[i..]));
      }
    }
    assert fields[i..] == [];
    assert paths + [] == paths;
    return Ok(paths);
  }

  lemma PrependNone(r: Result<seq<Bytes>>)
    ensures Prepend([], r) == r
  {
    if r.Ok? {
      assert [] + r.value == r.value;
    }
  }

  lemma PrependTwice(a: seq<Bytes>, b: seq<Bytes>, r: Result<seq<Bytes>>)
    ensures Prepend(a, Prepend(b, r)) == Prepend(a + b, r)
  {
    if r.Ok? {
      assert a + (b + r.value) == a + b + r.value;
    }
  }

  lemma ReadsPlain(c: Change, rest: Bytes)
    requires WellFormed(c) && c.origin.None?
    ensures WalkFields(Split(Record(c) + [NUL] + rest, NUL)) == Prepend([c.path], WalkFields(Split(rest, NUL)))
  {
    var record, fields := Record(c), Split(rest, NUL);
    assert NUL !in record && record[3..] == c.path;
    SplitFirst(record, NUL, rest);
    assert ([record] + fields)[1..] == fields;
  }

  lemma ReadsMoved(c: Change, rest: Bytes)
    requires WellFormed(c) && c.origin.Some?
    ensures WalkFields(Split(Record(c) + [NUL] + (c.origin.value + [NUL] + rest), NUL))
              == Prepend([c.path, c.origin.value], WalkFields(Split(rest, NUL)))
  {
    var record, o, fields := Record(c), c.origin.value, Split(rest, NUL);
    assert NUL !in record && record[3..] == c.path;
    SplitFirst(record, NUL, o + [NUL] + rest);
    SplitFirst(o, NUL, rest);
    WalkMoved(record, o, fields);
  }

  lemma WalkMoved(record: Bytes, o: Bytes, fields: seq<Bytes>)
    requires |record| >= 4 && Moved(record[0], record[1])
    ensures WalkFields([record] + ([o] + fields)) == Prepend([record[3..], o], WalkFields(fields))
  {
    assert ([record] + ([o] + fields))[2..] == fields;
  }

  /** Reading inverts git's status format: every path comes back in order, both
      names of a rename or a copy included. */
  lemma {:induction false} StatusRoundTrip(changes: seq<Change>)
    requires forall c | c in changes :: WellFormed(c)
    ensures WalkFields(Split(Status(changes), NUL)) == Ok(Paths(changes))
  {
    if changes == [] {
      assert Split([], NUL) == [[]];
      assert WalkFields([[]]) == Ok([]);
    } else {
      StatusRoundTrip(changes[1..]);
      var c, more := changes[0], Status(changes[1..]);
      if c.origin.Some? {
        ReadsMoved(c, more);
        assert [c.path] + [c.origin.value] == [c.path, c.origin.value];
      } else {
        ReadsPlain(c, more);
        assert [] + more == more;
        assert [c.path] + [] == [c.path];
      }
    }
  }

  // ---- output that is not git's ------------------------------------------

  /** Output that ends before an answer has its header line makes the reader raise. */
  lemma NoHeaderRaises(wanted: seq<Bytes>, out: Bytes, blobs: map<Bytes, Bytes>)
    requires wanted != [] && LF !in out
    ensures Walk(wanted, out, blobs).Err?
  {
    hide Announced;
    IndexIs(out, LF);
    assert IndexOf(out, LF) == |out|;
  }

  /** So does a rename or a copy whose second name is not there; a field too short for
      a record is passed over. */
  lemma LastField(record: Bytes)
    ensures |record| < 4 ==> WalkFields([record]) == Ok([])
    ensures |record| >= 4 ==>
              if Ascii("R")[0] in record[..2] || Ascii("C")[0] in record[..2] then WalkFields([record]).Err?
              else WalkFields([record]) == Ok([record[3..]])
  {
    assert [record][1..] == [];
    if |record| >= 4 {
      assert record[..2] == [record[0], record[1]];
      assert [record[3..]] + [] == [record[3..]];
    }
  }

  // ---- the formats, written out ------------------------------------------

  /** What git prints for a blob that holds "hi" and a newline. */
  lemma FoundExample(tree: Tree, path: Bytes)
    requires path in tree && tree[path] == Blob(Ascii("45b9"), Ascii("blob"), Ascii("hi\n"))
    ensures Response(tree, Ascii("HEAD:a"), path) == Ascii("45b9 blob 3\nhi\n\n")
  {
    assert Decimal(3) == Ascii("3");
    assert Header(tree[path]) == Ascii("45b9 blob 3");
  }

  /** And for a path that is not there. */
  lemma MissingExample(tree: Tree, path: Bytes)
    requires path !in tree && path == Ascii("b")
    ensures Request(Ascii("HEAD"), path) == Ascii("HEAD:b")
    ensures Response(tree, Ascii("HEAD:b"), path) == Ascii("HEAD:b missing\n")
  {
    assert MISSING == Ascii(" missing");
  }

  /** A rename in the index is followed by where it came from; so is a copy in the
      work tree; a change is not, whatever its name holds. */
  lemma StatusExamples()
    ensures var c := Change(82, 32, Ascii("new"), Some(Ascii("old"))); WellFormed(c) && Status([c]) == Ascii("R  new\0old\0")
    ensures var c := Change(32, 67, Ascii("c"), Some(Ascii("b"))); WellFormed(c) && Status([c]) == Ascii(" C c\0b\0")
    ensures var c := Change(32, 77, Ascii("a z"), None); WellFormed(c) && Status([c]) == Ascii(" M a z\0")
  {
  }

  /** A second name follows exactly the records with an R or a C in either place. */
  lemma SecondName(c: Change)
    requires WellFormed(c)
    ensures c.origin.Some? <==> Ascii("R")[0] in [c.x, c.y] || Ascii("C")[0] in [c.x, c.y]
  {
  }
}
