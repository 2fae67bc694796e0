/** Symlink resolution: ".." applies to the resolved parent, and a path is resolved as
    far as it exists. */
module Paths {
  import opened Texts

  const SLASH: byte := 47
  const DOT: byte := 46
  const MAX_SYMLINK_HOPS := 255

  // --- texts and components --------------------------------------------------

  /** strings.Split at the separator. */
  function Split(s: Text): (cs: seq<Text>)
    ensures cs != []
  {
    if s == [] then [[]]
    else if s[0] == SLASH then [[]] + Split(s[1..])
    else
      var rest := Split(s[1..]);
      [[s[0]] + rest[0]] + rest[1..]
  }

  predicate Plain(c: Text) { SLASH !in c }

  /** A component that names an entry of a directory. */
  predicate IsName(c: Text) { Plain(c) && c != [] && c != [DOT] && c != [DOT, DOT] }

  /** A clean absolute path: the names below the root. */
  type Path = p: seq<Text> | forall i | 0 <= i < |p| :: IsName(p[i]) witness []

  predicate AllPlain(cs: seq<Text>) { forall i | 0 <= i < |cs| :: Plain(cs[i]) }

  lemma {:induction false} SplitIsPlain(s: Text)
    ensures AllPlain(Split(s))
  {
    if s != [] {
      SplitIsPlain(s[1..]);
    }
  }

  function Below(p: Path): Text {
    if p == [] then [] else [SLASH] + p[0] + Below(p[1..])
  }

  function Render(p: Path): Text { if p == [] then [SLASH] else Below(p) }

  lemma {:induction false} SplitName(c: Text, rest: Text)
    requires Plain(c) && (rest == [] || rest[0] == SLASH)
    ensures Split(c + rest) == [c] + Split(rest)[1..]
  {
    if c == [] {
      assert c + rest == rest;
    } else {
      assert (c + rest)[1..] == c[1..] + rest;
      SplitName(c[1..], rest);
      assert [c[0]] + c[1..] == c;
    }
  }

  lemma {:induction false} SplitBelow(p: Path)
    ensures Split(Below(p)) == [[]] + p
  {
    if p != [] {
      var rest := Below(p[1..]);
      SplitBelow(p[1..]);
      SplitName(p[0], rest);
      assert Below(p)[1..] == p[0] + rest;
      assert [p[0]] + p[1..] == p;
    }
  }

  /** A rendered path splits into its names again, after an empty first component. */
  lemma SplitRender(p: Path)
    ensures Split(Render(p)) == [[]] + if p == [] then [[]] else p
  {
    SplitBelow(p);
  }

  function Parent(p: Path): Path { if p == [] then [] else p[..|p| - 1] }

  /** filepath.Clean of components below a clean path. */
  function Lexical(base: Path, cs: seq<Text>): Path
    requires AllPlain(cs)
    decreases |cs|
  {
    if cs == [] then base
    else if cs[0] == [] || cs[0] == [DOT] then Lexical(base, cs[1..])
    else if cs[0] == [DOT, DOT] then Lexical(Parent(base), cs[1..])
    else Lexical(base + [cs[0]], cs[1..])
  }

  // --- the file system -------------------------------------------------------

  /** What lstat says of a path, and for a link what readlink says. */
  datatype Node = Missing | Other | Link(target: Option<Text>)

  type FileSystem = Path -> Node

  predicate IsAbs(s: Text) { s != [] && s[0] == SLASH }

  function Budget(hops: nat): nat { if hops < MAX_SYMLINK_HOPS then MAX_SYMLINK_HOPS - hops else 0 }

  /** What resolveFrom computes: the resolved path and the hops counted so far. It ends
      on every file system, as a link is only followed on a smaller hop budget. */
  function Walk(fs: FileSystem, base: Path, cs: seq<Text>, hops: nat): (r: (Path, nat))
    requires AllPlain(cs)
    ensures r.1 >= hops
    decreases Budget(hops), |cs|
  {
    if cs == [] then (base, hops)
    else if cs[0] == [] || cs[0] == [DOT] then Walk(fs, base, cs[1..], hops)
    else if cs[0] == [DOT, DOT] then Walk(fs, Parent(base), cs[1..], hops)
    else
      var next: Path := base + [cs[0]];
      match fs(next)
      case Missing => (Lexical(next, cs[1..]), hops)
      case Other => Walk(fs, next, cs[1..], hops)
      case Link(target) =>
        if target.None? || hops + 1 > MAX_SYMLINK_HOPS then Walk(fs, next, cs[1..], hops + 1)
        else
          SplitIsPlain(target.value);
          var inner := Walk(fs, if IsAbs(target.value) then [] else base, Split(target.value), hops + 1);
          Walk(fs, inner.0, cs[1..], inner.1)
  }

  method ResolveFrom(fs: FileSystem, base: Path, path: Text, hops: nat) returns (resolved: Path, counted: nat)
    ensures AllPlain(Split(path)) && (resolved, counted) == Walk(fs, base, Split(path), hops)
    decreases Budget(hops)
  {
    resolved, counted := base, hops;
    var components := Split(path);
    SplitIsPlain(path);
    var index := 0;
    while index < |components|
      invariant 0 <= index <= |components| && AllPlain(components) && counted >= hops
      invariant Walk(fs, resolved, components[index..], counted) == Walk(fs, base, components, hops)
    {
      var component := components[index];
      index := index + 1;
      assert components[index - 1..][1..] == components[index..];
      if component == [] || component == [DOT] {
        continue;
      }
      if component == [DOT, DOT] {
        resolved := Parent(resolved);
        continue;
      }
      var next: Path := resolved + [component];
      match fs(next)
      case Missing =>
        return Lexical(next, components[index..]), counted;
      case Other =>
        resolved := next;
      case Link(target) =>
        counted := counted + 1;
        if target.None? || counted > MAX_SYMLINK_HOPS {
          resolved := next;
        } else {
          resolved, counted := ResolveFrom(fs, if IsAbs(target.value) then [] else resolved, target.value, counted);
        }
    }
  }

  /** A relative path is taken from the working directory, if that is known. */
  function Absolute(cwd: Option<Text>, path: Text): Text {
    if !IsAbs(path) && cwd.Some? then cwd.value + [SLASH] + path else path
  }

  function Resolved(fs: FileSystem, cwd: Option<Text>, path: Text): Text {
    SplitIsPlain(Absolute(cwd, path));
    Render(Walk(fs, [], Split(Absolute(cwd, path)), 0).0)
  }

  method Resolve(fs: FileSystem, cwd: Option<Text>, path: Text) returns (resolved: Text)
    ensures resolved == Resolved(fs, cwd, path)
  {
    var absolute := Absolute(cwd, path);
    var p, _ := ResolveFrom(fs, [], absolute, 0);
    resolved := Render(p);
  }

  /** Following a link starts at the root or where the link is. */
  function From(target: Text, base: Path): Path { if IsAbs(target) then [] else base }

  // --- an explicit stack -----------------------------------------------------

  predicate AllFrames(frames: seq<seq<Text>>) { forall i | 0 <= i < |frames| :: AllPlain(frames[i]) }

  function Size(frames: seq<seq<Text>>): nat {
    if frames == [] then 0 else |frames[0]| + 1 + Size(frames[1..])
  }

  /** The same resolution as one loop over a stack of component lists: a link pushes its
      target, and a missing entry cleans its own list as text and pops it. */
  function Machine(fs: FileSystem, base: Path, frames: seq<seq<Text>>, hops: nat): (Path, nat)
    requires AllFrames(frames)
    decreases Budget(hops), Size(frames)
  {
    if frames == [] then (base, hops)
    else if frames[0] == [] then Machine(fs, base, frames[1..], hops)
    else
      var c, rest, below := frames[0][0], frames[0][1..], frames[1..];
      assert ([rest] + below)[1..] == below;
      if c == [] || c == [DOT] then Machine(fs, base, [rest] + below, hops)
      else if c == [DOT, DOT] then Machine(fs, Parent(base), [rest] + below, hops)
      else
        var next: Path := base + [c];
        match fs(next)
        case Missing => Machine(fs, Lexical(next, rest), below, hops)
        case Other => Machine(fs, next, [rest] + below, hops)
        case Link(target) =>
          if target.None? || hops + 1 > MAX_SYMLINK_HOPS then Machine(fs, next, [rest] + below, hops + 1)
          else
            SplitIsPlain(target.value);
            Machine(fs, From(target.value, base), [Split(target.value), rest] + below, hops + 1)
  }

  /** On all file systems, paths and budgets the recursion is the stack machine. */
  lemma {:induction false} WalkIsMachine(fs: FileSystem, base: Path, cs: seq<Text>, below: seq<seq<Text>>, hops: nat)
    requires AllPlain(cs) && AllFrames(below)
    ensures var walked := Walk(fs, base, cs, hops);
            Machine(fs, base, [cs] + below, hops) == Machine(fs, walked.0, below, walked.1)
    decreases Budget(hops), |cs|
  {
    assert ([cs] + below)[1..] == below;
    if cs != [] {
      var rest := cs[1..];
      if cs[0] == [] || cs[0] == [DOT] {
        WalkIsMachine(fs, base, rest, below, hops);
      } else if cs[0] == [DOT, DOT] {
        WalkIsMachine(fs, Parent(base), rest, below, hops);
      } else {
        var next: Path := base + [cs[0]];
        match fs(next)
        case Missing =>
        case Other => WalkIsMachine(fs, next, rest, below, hops);
        case Link(target) =>
          if target.None? || hops + 1 > MAX_SYMLINK_HOPS {
            WalkIsMachine(fs, next, rest, below, hops + 1);
          } else {
            SplitIsPlain(target.value);
            var inner := Walk(fs, From(target.value, base), Split(target.value), hops + 1);
            assert [Split(target.value), rest] + below == [Split(target.value)] + ([rest] + below);
            WalkIsMachine(fs, From(target.value, base), Split(target.value), [rest] + below, hops + 1);
            WalkIsMachine(fs, inner.0, rest, below, inner.1);
          }
      }
    }
  }

  // --- pathname resolution ---------------------------------------------------

  /** Pathname resolution with one list of components still to do: the target of a link
      goes in front of the rest. It fails where nothing exists and on too many links; a
      link that cannot be read is kept, or fails too. */
  function Worklist(fs: FileSystem, base: Path, todo: seq<Text>, hops: nat, keep: bool): Option<(Path, nat)>
    requires AllPlain(todo)
    decreases Budget(hops), |todo|
  {
    if todo == [] then Some((base, hops))
    else if todo[0] == [] || todo[0] == [DOT] then Worklist(fs, base, todo[1..], hops, keep)
    else if todo[0] == [DOT, DOT] then Worklist(fs, Parent(base), todo[1..], hops, keep)
    else
      var next: Path := base + [todo[0]];
      match fs(next)
      case Missing => None
      case Other => Worklist(fs, next, todo[1..], hops, keep)
      case Link(target) =>
        if target.None? then (if keep then Worklist(fs, next, todo[1..], hops + 1, keep) else None)
        else if hops + 1 > MAX_SYMLINK_HOPS then None
        else
          SplitIsPlain(target.value);
          Worklist(fs, From(target.value, base), Split(target.value) + todo[1..], hops + 1, keep)
  }

  /** Doing a list of components is doing its front and then its rest. */
  lemma {:induction false} WorklistConcat(fs: FileSystem, base: Path, front: seq<Text>, rest: seq<Text>, hops: nat, keep: bool)
    requires AllPlain(front) && AllPlain(rest)
    ensures Worklist(fs, base, front, hops, keep).Some? ==> Worklist(fs, base, front, hops, keep).value.1 >= hops
    ensures Worklist(fs, base, front + rest, hops, keep) ==
            match Worklist(fs, base, front, hops, keep)
            case Some(mid) => Worklist(fs, mid.0, rest, mid.1, keep)
            case None => None
    decreases Budget(hops), |front|
  {
    if front == [] {
      assert front + rest == rest;
    } else {
      assert (front + rest)[1..] == front[1..] + rest;
      if front[0] == [] || front[0] == [DOT] {
        WorklistConcat(fs, base, front[1..], rest, hops, keep);
      } else if front[0] == [DOT, DOT] {
        WorklistConcat(fs, Parent(base), front[1..], rest, hops, keep);
      } else {
        var next: Path := base + [front[0]];
        match fs(next)
        case Missing =>
        case Other => WorklistConcat(fs, next, front[1..], rest, hops, keep);
        case Link(target) =>
          if target.None? {
            WorklistConcat(fs, next, front[1..], rest, hops + 1, keep);
          } else if hops + 1 <= MAX_SYMLINK_HOPS {
            SplitIsPlain(target.value);
            WorklistConcat(fs, From(target.value, base), Split(target.value) + front[1..], rest, hops + 1, keep);
            WorklistFollows(fs, base, front, hops, keep);
            WorklistFollows(fs, base, front + rest, hops, keep);
            assert Split(target.value) + front[1..] + rest == Split(target.value) + (front[1..] + rest);
          }
      }
    }
  }

  lemma WorklistFollows(fs: FileSystem, base: Path, todo: seq<Text>, hops: nat, keep: bool)
    requires AllPlain(todo) && todo != [] && IsName(todo[0]) && hops + 1 <= MAX_SYMLINK_HOPS
    requires fs(base + [todo[0]]).Link? && fs(base + [todo[0]]).target.Some?
    ensures var target := fs(base + [todo[0]]).target.value;
            && AllPlain(Split(target) + todo[1..])
            && Worklist(fs, base, todo, hops, keep)
               == Worklist(fs, From(target, base), Split(target) + todo[1..], hops + 1, keep)
  {
    SplitIsPlain(fs(base + [todo[0]]).target.value);
  }

  /** Where pathname resolution succeeds, the recursion with its shared counter computes
      the same path and counts as many links. */
  lemma {:induction false} WalkIsWorklist(fs: FileSystem, base: Path, cs: seq<Text>, hops: nat, keep: bool)
    requires AllPlain(cs) && Worklist(fs, base, cs, hops, keep).Some?
    ensures Walk(fs, base, cs, hops) == Worklist(fs, base, cs, hops, keep).value
    decreases Budget(hops), |cs|
  {
    if cs != [] {
      if cs[0] == [] || cs[0] == [DOT] {
        WalkIsWorklist(fs, base, cs[1..], hops, keep);
      } else if cs[0] == [DOT, DOT] {
        WalkIsWorklist(fs, Parent(base), cs[1..], hops, keep);
      } else {
        var next: Path := base + [cs[0]];
        match fs(next)
        case Other => WalkIsWorklist(fs, next, cs[1..], hops, keep);
        case Link(target) =>
          if target.None? {
            WalkIsWorklist(fs, next, cs[1..], hops + 1, keep);
          } else {
            var from := From(target.value, base);
            SplitIsPlain(target.value);
            WorklistConcat(fs, from, Split(target.value), cs[1..], hops + 1, keep);
            WalkIsWorklist(fs, from, Split(target.value), hops + 1, keep);
            var inner := Walk(fs, from, Split(target.value), hops + 1);
            WalkIsWorklist(fs, inner.0, cs[1..], inner.1, keep);
          }
      }
    }
  }

  /** An entry a walk goes through: no link, or one that cannot be read. */
  predicate Passes(node: Node, keep: bool) { node.Other? || (keep && node == Link(None)) }

  /** Every prefix exists and is no link that can be followed. */
  ghost predicate Solid(fs: FileSystem, p: Path, keep: bool) {
    forall i | 0 < i <= |p| :: Passes(fs(Prefix(p, i)), keep)
  }

  function Prefix(p: Path, i: nat): Path
    requires i <= |p|
  {
    p[..i]
  }

  lemma SolidSnoc(fs: FileSystem, p: Path, c: Text, keep: bool)
    requires Solid(fs, p, keep) && IsName(c) && Passes(fs(p + [c]), keep)
    ensures Solid(fs, p + [c], keep)
  {
    forall i | 0 < i <= |p + [c]|
      ensures Passes(fs(Prefix(p + [c], i)), keep)
    {
      if i <= |p| {
        assert Prefix(p + [c], i) == Prefix(p, i);
      } else {
        assert Prefix(p + [c], i) == p + [c];
      }
    }
  }

  lemma SolidParent(fs: FileSystem, p: Path, keep: bool)
    requires Solid(fs, p, keep)
    ensures Solid(fs, Parent(p), keep)
  {
    forall i | 0 < i <= |Parent(p)|
      ensures Passes(fs(Prefix(Parent(p), i)), keep)
    {
      assert Prefix(Parent(p), i) == Prefix(p, i);
    }
  }

  /** The resolved path has no link on it that could be followed. */
  lemma {:induction false} WorklistIsSolid(fs: FileSystem, base: Path, todo: seq<Text>, hops: nat, keep: bool)
    requires AllPlain(todo) && Solid(fs, base, keep) && Worklist(fs, base, todo, hops, keep).Some?
    ensures Solid(fs, Worklist(fs, base, todo, hops, keep).value.0, keep)
    decreases Budget(hops), |todo|
  {
    if todo != [] {
      if todo[0] == [] || todo[0] == [DOT] {
        WorklistIsSolid(fs, base, todo[1..], hops, keep);
      } else if todo[0] == [DOT, DOT] {
        SolidParent(fs, base, keep);
        WorklistIsSolid(fs, Parent(base), todo[1..], hops, keep);
      } else {
        var next: Path := base + [todo[0]];
        match fs(next)
        case Other =>
          SolidSnoc(fs, base, todo[0], keep);
          WorklistIsSolid(fs, next, todo[1..], hops, keep);
        case Link(target) =>
          if target.None? {
            SolidSnoc(fs, base, todo[0], keep);
            WorklistIsSolid(fs, next, todo[1..], hops + 1, keep);
          } else {
            SplitIsPlain(target.value);
            WorklistIsSolid(fs, From(target.value, base), Split(target.value) + todo[1..], hops + 1, keep);
          }
      }
    }
  }

  // --- resolving once more ---------------------------------------------------

  /** The first link that walking the names of a path follows, from its n-th name on:
      its place and the hop it is counted as. */
  function Followed(fs: FileSystem, p: Path, n: nat, hops: nat): (first: Option<(nat, nat)>)
    requires n <= |p|
    ensures first.Some? ==> var (k, h) := first.value;
              n <= k < |p| && fs(Prefix(p, k + 1)).Link? && fs(Prefix(p, k + 1)).target.Some?
    decreases |p| - n
  {
    if n == |p| then None
    else
      match fs(Prefix(p, n + 1))
      case Missing => None
      case Other => Followed(fs, p, n + 1, hops)
      case Link(target) =>
        if target.None? || hops + 1 > MAX_SYMLINK_HOPS then Followed(fs, p, n + 1, hops + 1) else Some((n, hops + 1))
  }

  lemma {:induction false} LexicalNames(base: Path, p: Path)
    ensures Lexical(base, p) == base + p
    decreases |p|
  {
    if p != [] {
      LexicalNames(base + [p[0]], p[1..]);
      assert base + [p[0]] + p[1..] == base + p;
    } else {
      assert base + p == base;
    }
  }

  function TargetAt(fs: FileSystem, p: Path, k: nat): Text
    requires k < |p| && fs(Prefix(p, k + 1)).Link? && fs(Prefix(p, k + 1)).target.Some?
  {
    fs(Prefix(p, k + 1)).target.value
  }

  /** Where a walk goes from a link it follows, with the rest of the path behind it. */
  function Onward(fs: FileSystem, p: Path, k: nat, h: nat): Path
    requires k < |p| && fs(Prefix(p, k + 1)).Link? && fs(Prefix(p, k + 1)).target.Some?
  {
    SplitIsPlain(TargetAt(fs, p, k));
    Machine(fs, From(TargetAt(fs, p, k), Prefix(p, k)), [Split(TargetAt(fs, p, k)), p[k + 1..]], h).0
  }

  /** Walking the names of a path leaves it alone up to the first link it follows. */
  lemma {:induction false} WalkNames(fs: FileSystem, p: Path, n: nat, hops: nat)
    requires n <= |p|
    ensures Walk(fs, p[..n], p[n..], hops).0 ==
            match Followed(fs, p, n, hops) case None => p case Some((k, h)) => Onward(fs, p, k, h)
    decreases |p| - n
  {
    if n == |p| {
      assert p[..n] == p;
    } else {
      NextName(fs, p, n, hops);
      match fs(Prefix(p, n + 1))
      case Missing =>
      case Other => WalkNames(fs, p, n + 1, hops);
      case Link(target) =>
        if target.None? || hops + 1 > MAX_SYMLINK_HOPS {
          WalkNames(fs, p, n + 1, hops + 1);
        } else {
          SplitIsPlain(target.value);
          FollowsOnward(fs, p, n, hops + 1);
        }
    }
  }

  /** One name of a path, walked. */
  lemma NextName(fs: FileSystem, p: Path, n: nat, hops: nat)
    requires n < |p|
    ensures var walked := Walk(fs, p[..n], p[n..], hops);
            match fs(Prefix(p, n + 1))
            case Missing => walked.0 == p
            case Other => walked == Walk(fs, p[..n + 1], p[n + 1..], hops)
            case Link(target) =>
              if target.None? || hops + 1 > MAX_SYMLINK_HOPS then walked == Walk(fs, p[..n + 1], p[n + 1..], hops + 1)
              else
                && AllPlain(Split(target.value))
                && var inner := Walk(fs, From(target.value, Prefix(p, n)), Split(target.value), hops + 1);
                   walked == Walk(fs, inner.0, p[n + 1..], inner.1)
  {
    var next: Path := p[..n] + [p[n]];
    assert next == Prefix(p, n + 1) == p[..n + 1] && p[n..][1..] == p[n + 1..] && p[n..][0] == p[n];
    assert IsName(p[n]);
    match fs(next)
    case Missing =>
      LexicalNames(next, p[n + 1..]);
      assert next + p[n + 1..] == p;
    case Other =>
    case Link(target) =>
      if target.Some? {
        SplitIsPlain(target.value);
      }
  }

  lemma FollowsOnward(fs: FileSystem, p: Path, k: nat, h: nat)
    requires k < |p| && fs(Prefix(p, k + 1)).Link? && fs(Prefix(p, k + 1)).target.Some? && AllPlain(Split(TargetAt(fs, p, k)))
    ensures var inner := Walk(fs, From(TargetAt(fs, p, k), Prefix(p, k)), Split(TargetAt(fs, p, k)), h);
            Walk(fs, inner.0, p[k + 1..], inner.1).0 == Onward(fs, p, k, h)
  {
    var target, from, rest := Split(TargetAt(fs, p, k)), From(TargetAt(fs, p, k), Prefix(p, k)), p[k + 1..];
    var inner := Walk(fs, from, target, h);
    assert [target, rest] == [target] + [rest] && [rest] == [rest] + [];
    WalkIsMachine(fs, from, target, [rest], h);
    WalkIsMachine(fs, inner.0, rest, [], inner.1);
  }

  /** Resolving a rendered path is walking its names. */
  lemma ResolveRendered(fs: FileSystem, cwd: Option<Text>, p: Path)
    ensures Resolved(fs, cwd, Render(p)) == Render(Walk(fs, [], p, 0).0)
  {
    SplitRender(p);
    var cs: seq<Text> := Split(Render(p));
    SplitIsPlain(Render(p));
    assert Absolute(cwd, Render(p)) == Render(p);
    assert Walk(fs, [], cs, 0) == Walk(fs, [], cs[1..], 0);
    if p == [] {
      var empty: seq<Text> := [];
      assert cs[1..] == [[]] && cs[1..][1..] == empty;
      assert Walk(fs, [], cs[1..], 0) == Walk(fs, [], empty, 0);
    } else {
      assert cs[1..] == p;
    }
  }

  lemma RenderInjective(p: Path, q: Path)
    requires Render(p) == Render(q)
    ensures p == q
  {
    SplitRender(p);
    SplitRender(q);
    var cs := Split(Render(p));
    assert cs[1..] == if p == [] then [[]] else p;
    assert cs[1..] == if q == [] then [[]] else q;
  }

  /** The path a text resolves to. */
  function Outcome(fs: FileSystem, cwd: Option<Text>, path: Text): Path {
    SplitIsPlain(Absolute(cwd, path));
    Walk(fs, [], Split(Absolute(cwd, path)), 0).0
  }

  predicate Stable(fs: FileSystem, cwd: Option<Text>, path: Text) {
    Resolved(fs, cwd, Resolved(fs, cwd, path)) == Resolved(fs, cwd, path)
  }

  /** Resolving a text twice is resolving it once if and only if walking the result
      follows no link, or the first link it follows leads back to the result. */
  lemma StableIff(fs: FileSystem, cwd: Option<Text>, path: Text)
    ensures Stable(fs, cwd, path) <==>
            var p := Outcome(fs, cwd, path);
            match Followed(fs, p, 0, 0) case None => true case Some((k, h)) => Onward(fs, p, k, h) == p
  {
    var p := Outcome(fs, cwd, path);
    assert Resolved(fs, cwd, path) == Render(p);
    ResolveRendered(fs, cwd, p);
    WalkNames(fs, p, 0, 0);
    assert p[..0] == [] && p[0..] == p;
    if Render(Walk(fs, [], p, 0).0) == Render(p) {
      RenderInjective(Walk(fs, [], p, 0).0, p);
    }
  }

  /** If the second walk meets nothing missing and stays within its budget, following a
      link never leads back: then it is stable if and only if it follows none. */
  lemma StableWithinBudget(fs: FileSystem, cwd: Option<Text>, path: Text)
    requires Worklist(fs, [], Outcome(fs, cwd, path), 0, true).Some?
    ensures Stable(fs, cwd, path) <==> Followed(fs, Outcome(fs, cwd, path), 0, 0).None?
  {
    var p := Outcome(fs, cwd, path);
    StableIff(fs, cwd, path);
    WalkIsWorklist(fs, [], p, 0, true);
    WorklistIsSolid(fs, [], p, 0, true);
    WalkNames(fs, p, 0, 0);
    assert p[..0] == [] && p[0..] == p;
    if Walk(fs, [], p, 0).0 == p {
      SolidFollowsNothing(fs, p, 0, 0);
    }
  }

  // --- how the first pass ends -----------------------------------------------

  /** Pathname resolution of a whole text. */
  function Located(fs: FileSystem, cwd: Option<Text>, path: Text, keep: bool): Option<(Path, nat)> {
    SplitIsPlain(Absolute(cwd, path));
    Worklist(fs, [], Split(Absolute(cwd, path)), 0, keep)
  }

  lemma {:induction false} SolidFollowsNothing(fs: FileSystem, p: Path, n: nat, hops: nat)
    requires n <= |p| && forall i | n < i <= |p| :: Passes(fs(Prefix(p, i)), true)
    ensures Followed(fs, p, n, hops).None?
    decreases |p| - n
  {
    if n < |p| {
      assert Passes(fs(Prefix(p, n + 1)), true);
      SolidFollowsNothing(fs, p, n + 1, if fs(Prefix(p, n + 1)).Link? then hops + 1 else hops);
    }
  }

  /** It succeeds: the result is that of pathname resolution, has no link on it that
      could be followed, and is stable. Unreadable links may be on it if they are kept. */
  lemma ResolveIsPathnameResolution(fs: FileSystem, cwd: Option<Text>, path: Text, keep: bool)
    requires Located(fs, cwd, path, keep).Some?
    ensures Resolved(fs, cwd, path) == Render(Located(fs, cwd, path, keep).value.0)
    ensures Solid(fs, Located(fs, cwd, path, keep).value.0, keep)
    ensures Stable(fs, cwd, path)
  {
    var cs := Split(Absolute(cwd, path));
    SplitIsPlain(Absolute(cwd, path));
    WalkIsWorklist(fs, [], cs, 0, keep);
    WorklistIsSolid(fs, [], cs, 0, keep);
    var p := Outcome(fs, cwd, path);
    forall i | 0 < i <= |p|
      ensures Passes(fs(Prefix(p, i)), true)
    {
      assert Passes(fs(Prefix(p, i)), keep);
    }
    SolidFollowsNothing(fs, p, 0, 0);
    StableIff(fs, cwd, path);
  }

  lemma {:induction false} WalkConcat(fs: FileSystem, base: Path, front: seq<Text>, rest: seq<Text>, hops: nat)
    requires AllPlain(front) && AllPlain(rest) && Worklist(fs, base, front, hops, true).Some?
    ensures var mid := Worklist(fs, base, front, hops, true).value;
            Walk(fs, base, front + rest, hops) == Walk(fs, mid.0, rest, mid.1)
    decreases Budget(hops), |front|
  {
    if front == [] {
      assert front + rest == rest;
    } else {
      assert (front + rest)[1..] == front[1..] + rest;
      if front[0] == [] || front[0] == [DOT] {
        WalkConcat(fs, base, front[1..], rest, hops);
      } else if front[0] == [DOT, DOT] {
        WalkConcat(fs, Parent(base), front[1..], rest, hops);
      } else {
        var next: Path := base + [front[0]];
        match fs(next)
        case Other => WalkConcat(fs, next, front[1..], rest, hops);
        case Link(target) =>
          if target.None? {
            WalkConcat(fs, next, front[1..], rest, hops + 1);
          } else {
            var from := From(target.value, base);
            SplitIsPlain(target.value);
            WorklistConcat(fs, from, Split(target.value), front[1..], hops + 1, true);
            WalkIsWorklist(fs, from, Split(target.value), hops + 1, true);
            var inner := Walk(fs, from, Split(target.value), hops + 1);
            WalkConcat(fs, inner.0, front[1..], rest, inner.1);
          }
      }
    }
  }

  lemma SplitFirst(c: byte, s: Text)
    ensures Split([c] + s) == if c == SLASH then [[]] + Split(s) else [[c] + Split(s)[0]] + Split(s)[1..]
  {
    assert ([c] + s)[1..] == s;
  }

  lemma {:induction false} SplitJoin(front: Text, rest: Text)
    ensures Split(front + ([SLASH] + rest)) == Split(front) + Split(rest)
  {
    if front == [] {
      SplitFirst(SLASH, rest);
      assert front + ([SLASH] + rest) == [SLASH] + rest;
    } else {
      var c, tail := front[0], front[1..];
      assert front == [c] + tail && front + ([SLASH] + rest) == [c] + (tail + ([SLASH] + rest));
      SplitFirst(c, tail);
      SplitFirst(c, tail + ([SLASH] + rest));
      SplitJoin(tail, rest);
      FirstGrows(c, Split(tail), Split(rest));
    }
  }

  lemma FirstGrows(c: byte, front: seq<Text>, rest: seq<Text>)
    requires front != []
    ensures [[]] + (front + rest) == [[]] + front + rest
    ensures [[c] + (front + rest)[0]] + (front + rest)[1..] == [[c] + front[0]] + front[1..] + rest
  {
  }

  /** An absolute path is resolved from the root whatever the working directory is, and so
      is any path if that is not known. */
  lemma AbsoluteIsFromRoot(fs: FileSystem, cwd: Option<Text>, path: Text)
    requires IsAbs(path) || cwd.None?
    ensures AllPlain(Split(path)) && Resolved(fs, cwd, path) == Render(Walk(fs, [], Split(path), 0).0)
  {
    SplitIsPlain(path);
  }

  /** A relative path is resolved behind the working directory: as the names of both one
      after the other, and so from the directory itself, with the hops it took to get there,
      if that can be located. */
  lemma RelativeIsBelow(fs: FileSystem, cwd: Text, path: Text)
    requires !IsAbs(path)
    ensures AllPlain(Split(cwd)) && AllPlain(Split(path))
    ensures Resolved(fs, Some(cwd), path) == Render(Walk(fs, [], Split(cwd) + Split(path), 0).0)
    ensures match Worklist(fs, [], Split(cwd), 0, true)
            case None => true
            case Some((d, hops)) => Resolved(fs, Some(cwd), path) == Render(Walk(fs, d, Split(path), hops).0)
  {
    SplitIsPlain(cwd);
    SplitIsPlain(path);
    SplitJoin(cwd, path);
    assert cwd + [SLASH] + path == cwd + ([SLASH] + path);
    if Worklist(fs, [], Split(cwd), 0, true).Some? {
      WalkConcat(fs, [], Split(cwd), Split(path), 0);
    }
  }

  /** Where no link is on the way, a single name is resolved to that name in the working
      directory. */
  lemma RelativeName(fs: FileSystem, d: Path, path: Text)
    requires IsName(path) && Solid(fs, d, false) && !fs(d + [path]).Link?
    ensures Resolved(fs, Some(Render(d)), path) == Render(d + [path])
  {
    var names: seq<Text> := d;
    SplitRender(d);
    SplitIsPlain(Render(d));
    SolidIsLocated(fs, d, 0);
    assert d[..0] == [] && d[0..] == d;
    LocatedRendered(fs, d);
    SplitPlain(path);
    RelativeIsBelow(fs, Render(d), path);
    assert [path][1..] == [];
  }

  lemma {:induction false} SolidIsLocated(fs: FileSystem, d: Path, n: nat)
    requires n <= |d| && Solid(fs, d, false)
    ensures Worklist(fs, d[..n], d[n..], 0, true) == Some((d, 0))
    decreases |d| - n
  {
    if n == |d| {
      assert d[..n] == d;
    } else {
      assert d[..n] + [d[n]] == Prefix(d, n + 1) && d[n..][1..] == d[n + 1..];
      assert Passes(fs(Prefix(d, n + 1)), false);
      SolidIsLocated(fs, d, n + 1);
    }
  }

  lemma LocatedRendered(fs: FileSystem, d: Path)
    requires AllPlain(Split(Render(d))) && Worklist(fs, [], d, 0, true) == Some((d, 0))
    ensures Worklist(fs, [], Split(Render(d)), 0, true) == Some((d, 0))
  {
    SplitRender(d);
    var cs: seq<Text> := Split(Render(d));
    if d == [] {
      var empty: seq<Text> := [];
      assert cs[1..] == [[]] && cs[1..][1..] == empty;
    } else {
      assert cs[1..] == d;
    }
  }

  /** It comes to a first missing entry: the rest is only cleaned as text, and what that
      leads to decides. Without a ".." in it the result is stable. */
  lemma MissingIsKept(fs: FileSystem, cwd: Option<Text>, path: Text, front: seq<Text>, c: Text, rest: seq<Text>)
    requires AllPlain(front) && IsName(c) && AllPlain(rest) && Split(Absolute(cwd, path)) == front + ([c] + rest)
    requires Worklist(fs, [], front, 0, true).Some? && fs(Worklist(fs, [], front, 0, true).value.0 + [c]).Missing?
    ensures var next: Path := Worklist(fs, [], front, 0, true).value.0 + [c];
            && Outcome(fs, cwd, path) == Lexical(next, rest)
            && ([DOT, DOT] !in rest ==> Followed(fs, Lexical(next, rest), 0, 0).None? && Stable(fs, cwd, path))
  {
    var mid := Worklist(fs, [], front, 0, true).value.0;
    var next: Path := mid + [c];
    WalkConcat(fs, [], front, [c] + rest, 0);
    assert ([c] + rest)[1..] == rest;
    if [DOT, DOT] !in rest {
      WorklistIsSolid(fs, [], front, 0, true);
      LexicalExtends(next, rest);
      var p := Lexical(next, rest);
      assert Prefix(p, |mid| + 1) == next;
      forall i | 0 < i <= |mid|
        ensures Passes(fs(Prefix(p, i)), true)
      {
        assert Prefix(p, i) == Prefix(next, i) == Prefix(mid, i);
      }
      EndsAtMissing(fs, p, |mid|, 0, 0);
      StableIff(fs, cwd, path);
    }
  }

  lemma {:induction false} EndsAtMissing(fs: FileSystem, p: Path, m: nat, n: nat, hops: nat)
    requires n <= m < |p| && fs(Prefix(p, m + 1)).Missing? && forall i | n < i <= m :: Passes(fs(Prefix(p, i)), true)
    ensures Followed(fs, p, n, hops).None?
    decreases |p| - n
  {
    if n < m {
      assert Passes(fs(Prefix(p, n + 1)), true);
      EndsAtMissing(fs, p, m, n + 1, if fs(Prefix(p, n + 1)).Link? then hops + 1 else hops);
    }
  }

  lemma {:induction false} LexicalExtends(base: Path, cs: seq<Text>)
    requires AllPlain(cs) && [DOT, DOT] !in cs
    ensures |Lexical(base, cs)| >= |base| && Lexical(base, cs)[..|base|] == base
    decreases |cs|
  {
    if cs != [] {
      if cs[0] == [] || cs[0] == [DOT] {
        LexicalExtends(base, cs[1..]);
      } else {
        LexicalExtends(base + [cs[0]], cs[1..]);
        assert base == (base + [cs[0]])[..|base|];
        assert Lexical(base, cs)[..|base|] == Lexical(base, cs)[..|base| + 1][..|base|];
      }
    }
  }

  // --- a budget that runs out ------------------------------------------------

  /** A name of n letters. */
  function Letters(n: nat): (name: Text)
    requires n >= 1
    ensures |name| == n && (forall i | 0 <= i < n :: name[i] == 97) && IsName(name)
  {
    var name: Text := seq(n, i => 97);
    assert name[0] == 97;
    name
  }

  function Entry(n: nat): Path
    requires n >= 1
  {
    [Letters(n)]
  }

  ghost predicate IsChain(fs: FileSystem) {
    && (forall n {:trigger Entry(n)} | n >= 2 :: fs(Entry(n)) == Link(Some(Letters(n - 1))))
    && fs(Entry(1)).Other?
  }

  /** How far a chain is followed with some hops left. */
  function Reached(n: nat, left: nat): (m: nat)
    requires n >= 1
    ensures 1 <= m <= n
  {
    if n - 1 <= left then 1 else n - left
  }

  /** Each link of the chain takes one hop, until they are used up. */
  lemma {:induction false} WalkChain(fs: FileSystem, n: nat, hops: nat)
    requires IsChain(fs) && n >= 1 && hops <= MAX_SYMLINK_HOPS
    ensures Walk(fs, [], Entry(n), hops).0 == Entry(Reached(n, MAX_SYMLINK_HOPS - hops))
    decreases n
  {
    var root: Path := [];
    var none: seq<Text> := [];
    assert root + [Letters(n)] == Entry(n) && Entry(n)[1..] == none;
    if n >= 2 {
      SplitPlain(Letters(n - 1));
      assert fs(Entry(n)) == Link(Some(Letters(n - 1)));
      if hops + 1 <= MAX_SYMLINK_HOPS {
        WalkChain(fs, n - 1, hops + 1);
        ChainStep(fs, n, hops);
      }
    }
  }

  lemma ChainStep(fs: FileSystem, n: nat, hops: nat)
    requires n >= 2 && hops + 1 <= MAX_SYMLINK_HOPS && fs(Entry(n)) == Link(Some(Letters(n - 1)))
    ensures Walk(fs, [], Entry(n), hops) == Walk(fs, [], Entry(n - 1), hops + 1)
  {
    var root: Path := [];
    var none: seq<Text> := [];
    SplitPlain(Letters(n - 1));
    assert root + [Letters(n)] == Entry(n) && Entry(n)[1..] == none;
    var inner := Walk(fs, root, Entry(n - 1), hops + 1);
    assert Walk(fs, inner.0, none, inner.1) == inner;
  }

  lemma EntryInjective(m: nat, n: nat)
    requires m >= 1 && n >= 1 && Render(Entry(m)) == Render(Entry(n))
    ensures m == n
  {
    RenderInjective(Entry(m), Entry(n));
    assert |Entry(m)[0]| == |Entry(n)[0]|;
  }

  /** It runs out of hops: a chain of links is resolved to its end in one pass, and the
      result is stable, if and only if it has no more links than there are hops. */
  lemma ChainStableIff(fs: FileSystem, cwd: Option<Text>, n: nat)
    requires IsChain(fs) && n >= 1
    ensures Resolved(fs, cwd, Render(Entry(n))) == Render(Entry(Reached(n, 255)))
    ensures Stable(fs, cwd, Render(Entry(n))) <==> n - 1 <= 255
  {
    var m := Reached(n, MAX_SYMLINK_HOPS);
    var k := Reached(m, MAX_SYMLINK_HOPS);
    ResolveRendered(fs, cwd, Entry(n));
    WalkChain(fs, n, 0);
    ResolveRendered(fs, cwd, Entry(m));
    WalkChain(fs, m, 0);
    if Render(Entry(k)) == Render(Entry(m)) {
      EntryInjective(k, m);
    }
  }

  // --- single links ----------------------------------------------------------

  lemma SplitSlash(rest: Text)
    ensures Split([SLASH] + rest) == [[]] + Split(rest)
  {
    assert ([SLASH] + rest)[1..] == rest;
  }

  lemma SplitPlain(c: Text)
    requires Plain(c)
    ensures Split(c) == [c]
  {
    SplitName(c, []);
    assert c + [] == c;
  }

  /** The text /c/../l. */
  function Detour(c: Text, l: Text): Text { [SLASH] + (c + ([SLASH] + ([DOT, DOT] + ([SLASH] + l)))) }

  lemma SplitDetour(c: Text, l: Text)
    requires Plain(c) && Plain(l)
    ensures Split(Detour(c, l)) == [[], c, [DOT, DOT], l]
  {
    SplitPlain(l);
    SplitSlash(l);
    SplitName([DOT, DOT], [SLASH] + l);
    SplitSlash([DOT, DOT] + ([SLASH] + l));
    SplitName(c, [SLASH] + ([DOT, DOT] + ([SLASH] + l)));
    SplitSlash(c + ([SLASH] + ([DOT, DOT] + ([SLASH] + l))));
  }

  lemma DetourIsLexical(fs: FileSystem, c: Text, l: Text)
    requires IsName(c) && IsName(l) && fs([c]).Missing?
    ensures Walk(fs, [], [[], c, [DOT, DOT], l], 0).0 == [l]
  {
    var root, gone: Path := [], [c];
    var all, cs, up, last, none: seq<Text> := [[], c, [DOT, DOT], l], [c, [DOT, DOT], l], [[DOT, DOT], l], [l], [];
    assert all[1..] == cs && cs[1..] == up && up[1..] == last && last[1..] == none;
    assert root + [c] == gone && Parent(gone) == root && root + [l] == last;
    assert Walk(fs, root, all, 0) == Walk(fs, root, cs, 0);
    assert Lexical(gone, up) == Lexical(root, last) == Lexical(last, none);
  }

  lemma LinkIsFollowed(fs: FileSystem, l: Text, t: Text)
    requires IsName(l) && IsName(t) && fs([l]) == Link(Some(t)) && fs([t]).Other?
    ensures Walk(fs, [], [l], 0).0 == [t]
  {
    var root: Path := [];
    var none: seq<Text> := [];
    SplitPlain(t);
    assert root + [l] == [l] && root + [t] == [t] && [l][1..] == none && [t][1..] == none;
    assert Walk(fs, root, [t], 1) == Walk(fs, [t], none, 1);
  }

  /** Behind a missing entry c, ".." may lead to a link l, which is left unresolved:
      resolving /c/../l gives /l, and resolving that gives the link's target. */
  lemma MissingParentIsNotStable(fs: FileSystem, cwd: Option<Text>, c: Text, l: Text, t: Text)
    requires IsName(c) && IsName(l) && IsName(t)
    requires fs([c]).Missing? && fs([l]) == Link(Some(t)) && fs([t]).Other?
    ensures Resolved(fs, cwd, Detour(c, l)) == Render([l])
    ensures Resolved(fs, cwd, Render([l])) == Render([t])
  {
    SplitDetour(c, l);
    DetourIsLexical(fs, c, l);
    LinkIsFollowed(fs, l, t);
    ResolveRendered(fs, cwd, [l]);
  }

  /** A link may be followed and yet lead back: one to itself uses up the budget, */
  lemma {:induction false} SelfLinkStays(fs: FileSystem, l: Text, hops: nat)
    requires IsName(l) && !IsAbs(l) && fs([l]) == Link(Some(l))
    ensures Walk(fs, [], [l], hops).0 == [l]
    decreases Budget(hops)
  {
    var root: Path := [];
    var none: seq<Text> := [];
    SplitPlain(l);
    assert root + [l] == [l] && [l][1..] == none;
    if hops + 1 <= MAX_SYMLINK_HOPS {
      SelfLinkStays(fs, l, hops + 1);
      var inner := Walk(fs, root, [l], hops + 1);
      assert Walk(fs, inner.0, none, inner.1) == inner;
    }
  }

  lemma SelfLinkIsStable(fs: FileSystem, cwd: Option<Text>, l: Text)
    requires IsName(l) && !IsAbs(l) && fs([l]) == Link(Some(l))
    ensures Resolved(fs, cwd, Render([l])) == Render([l]) && Stable(fs, cwd, Render([l]))
    ensures Followed(fs, [l], 0, 0) == Some((0, 1))
  {
    SelfLinkStays(fs, l, 0);
    ResolveRendered(fs, cwd, [l]);
    assert Prefix([l], 1) == [l];
  }
}
