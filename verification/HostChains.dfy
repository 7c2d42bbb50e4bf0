/**
 The nftables chains of the host, shared by every project: three base chains that jump to
 per-project chains.  Setup and teardown find their own jumps by looking for a piece of text
 in the listing of a base chain, as the source does.
 */
module HostChains {
  import opened Options
  import opened PortForwards
  import opened Text

  datatype Hook = Forward | Postrouting | Prerouting

  /** A base chain, a project's chain, or a chain somebody else made. */
  datatype Chain = Base(hook: Hook) | Project(hook: Hook, pid: string) | Foreign(table: string, name: string)
  {
    function Name(): string {
      match this
      case Base(Forward) => "forward"
      case Base(Postrouting) => "postrouting"
      case Base(Prerouting) => "prerouting"
      case Project(Forward, pid) => "troshka-fwd-" + pid
      case Project(Postrouting, pid) => "troshka-post-" + pid
      case Project(Prerouting, pid) => "troshka-pre-" + pid
      case Foreign(_, name) => name
    }
  }

  /** One rule of a chain; `Other` is a rule somebody else wrote, by its text. */
  datatype Line =
    | Jump(target: Chain)
    | Other(text: string)
    | AcceptFrom(iface: string)
    | AcceptTo(iface: string)
    | Masquerade(cidr: Subnet)
    | DnatLine(rule: Dnat)

  type Tables = map<Chain, seq<Line>>

  /** The order in which setup and teardown go through the hooks. */
  function Rank(hook: Hook): (r: nat)
    ensures r < 3
  {
    match hook case Forward => 0 case Postrouting => 1 case Prerouting => 2
  }

  function Nth(i: nat): (hook: Hook)
    requires i < 3
    ensures Rank(hook) == i
  {
    if i == 0 then Forward else if i == 1 then Postrouting else Prerouting
  }

  /** `f"jump {chain}" in line`: a jump is listed as "jump " and its target, which has no blanks. */
  predicate Mentions(line: Line, chain: Chain) {
    match line
    case Jump(target) => chain.Name() <= target.Name()
    case Other(text) => Contains(text, "jump " + chain.Name())
    case _ => false
  }

  predicate AnyMentions(lines: seq<Line>, chain: Chain) {
    exists k :: 0 <= k < |lines| && Mentions(lines[k], chain)
  }

  function Get(s: Tables, id: Chain): seq<Line> {
    if id in s then s[id] else []
  }

  // ---------- one setup, one teardown ----------

  /** What one project wants in its three chains. */
  datatype Body = Body(forward: seq<Line>, post: seq<Line>, pre: seq<Line>)
  {
    function At(hook: Hook): seq<Line> {
      match hook case Forward => forward case Postrouting => post case Prerouting => pre
    }
  }

  function Linked(lines: seq<Line>, chain: Chain): seq<Line> {
    if AnyMentions(lines, chain) then lines else lines + [Jump(chain)]
  }

  /** The lines that do not speak of the chain. */
  function Without(lines: seq<Line>, chain: Chain): seq<Line> {
    if lines == [] then []
    else (if Mentions(lines[0], chain) then [] else [lines[0]]) + Without(lines[1..], chain)
  }

  function Bases(): (r: set<Chain>)
    ensures forall id :: id in r <==> id.Base?
  {
    set hook: Hook | true :: Base(hook)
  }

  function ChainsOf(pid: string): (r: set<Chain>)
    ensures forall id :: id in r <==> IsOf(id, pid)
  {
    set hook: Hook | true :: Project(hook, pid)
  }

  predicate IsOf(id: Chain, pid: string) {
    id.Project? && id.pid == pid
  }

  /** The tables with the base chains created. */
  function WithBases(s: Tables): Tables {
    map id | id in s.Keys + Bases() :: Get(s, id)
  }

  /** What a chain holds after a project's setup. */
  function SetUp(s: Tables, pid: string, body: Body, id: Chain): seq<Line> {
    if id.Base? then Linked(Get(s, id), Project(id.hook, pid))
    else if IsOf(id, pid) then body.At(id.hook)
    else Get(s, id)
  }

  function AfterSetup(s: Tables, pid: string, body: Body): (t: Tables)
    ensures forall id :: id in t <==> id in s || id.Base? || IsOf(id, pid)
  {
    map id | id in s.Keys + Bases() + ChainsOf(pid) :: SetUp(s, pid, body, id)
  }

  /** What a chain holds after a project's teardown. */
  function TornDown(s: Tables, pid: string, id: Chain): seq<Line> {
    if id.Base? then Without(Get(s, id), Project(id.hook, pid)) else Get(s, id)
  }

  function AfterTeardown(s: Tables, pid: string): Tables {
    map id | id in s && !IsOf(id, pid) :: TornDown(s, pid, id)
  }

  lemma SameTables(t: Tables, u: Tables)
    requires forall id :: id in t <==> id in u
    requires forall id :: id in t ==> t[id] == u[id]
    ensures t == u
  {
    assert t.Keys == u.Keys;
  }

  // ---------- the invariant of the shared chains ----------

  /** How many jumps to the chain there are. */
  function Jumps(lines: seq<Line>, chain: Chain): nat {
    if lines == [] then 0
    else (if lines[0] == Jump(chain) then 1 else 0) + Jumps(lines[1..], chain)
  }

  /** A project id: the first eight characters of a UUID. */
  predicate IsPid(pid: string) {
    |pid| == 8
  }

  /** A line of a base chain: a jump to a project chain of its hook, or a rule that does not speak of one. */
  predicate Civil(line: Line, hook: Hook) {
    match line
    case Jump(Project(h, pid)) => h == hook && IsPid(pid)
    case Jump(target) => !("troshka-" <= target.Name())
    case Other(text) => !Contains(text, "jump troshka-")
    case _ => true
  }

  ghost predicate HookOk(s: Tables, active: set<string>, hook: Hook) {
    && (forall k :: 0 <= k < |Get(s, Base(hook))| ==> Civil(Get(s, Base(hook))[k], hook))
    // one jump for each active project, none for any other
    && (forall pid {:trigger Project(hook, pid)} :: IsPid(pid) ==>
          Jumps(Get(s, Base(hook)), Project(hook, pid)) == if pid in active then 1 else 0)
    // no chain but the base chain of the hook jumps to a project's chain of the hook
    && (forall id, pid :: id in s && id != Base(hook) ==> Jump(Project(hook, pid)) !in s[id])
    // every project chain and every jump target exists
    && (forall pid :: pid in active ==> Project(hook, pid) in s)
    && (forall target :: Jump(target) in Get(s, Base(hook)) ==> target in s)
  }

  ghost predicate Ok(s: Tables, active: set<string>) {
    && (forall pid :: pid in active ==> IsPid(pid))
    && forall hook :: HookOk(s, active, hook)
  }

  // ---------- whole runs ----------

  datatype Op =
    | Setup(pid: string, mode: string, body: Body)
    | Teardown(pid: string)

  predicate NatMode(mode: string) {
    mode == "nat" || mode == "nat-portforward"
  }

  /** A setup writes only rules of its own into its chains. */
  predicate OwnLines(lines: seq<Line>) {
    forall line :: line in lines ==> !line.Jump? && !line.Other?
  }

  predicate Sane(op: Op) {
    IsPid(op.pid) && (op.Setup? ==> OwnLines(op.body.forward) && OwnLines(op.body.post) && OwnLines(op.body.pre))
  }

  function Apply(s: Tables, op: Op): Tables {
    match op
    case Setup(pid, mode, body) => if NatMode(mode) then AfterSetup(s, pid, body) else s
    case Teardown(pid) => AfterTeardown(s, pid)
  }

  /** The projects set up in a NAT mode since their last teardown. */
  function ActiveAfter(active: set<string>, op: Op): set<string> {
    match op
    case Setup(pid, mode, _) => if NatMode(mode) then active + {pid} else active
    case Teardown(pid) => active - {pid}
  }

  function Run(s: Tables, ops: seq<Op>): Tables
    decreases |ops|
  {
    if ops == [] then s else Run(Apply(s, ops[0]), ops[1..])
  }

  function ActiveRun(active: set<string>, ops: seq<Op>): set<string>
    decreases |ops|
  {
    if ops == [] then active else ActiveRun(ActiveAfter(active, ops[0]), ops[1..])
  }

  // ---------- proofs about lines ----------

  lemma {:induction false} JumpsAppend(a: seq<Line>, b: seq<Line>, chain: Chain)
    ensures Jumps(a + b, chain) == Jumps(a, chain) + Jumps(b, chain)
  {
    if a == [] {
      assert a + b == b;
    } else {
      assert (a + b)[1..] == a[1..] + b;
      JumpsAppend(a[1..], b, chain);
    }
  }

  lemma {:induction false} JumpsPositive(lines: seq<Line>, chain: Chain)
    ensures Jumps(lines, chain) > 0 <==> Jump(chain) in lines
  {
    if lines != [] {
      JumpsPositive(lines[1..], chain);
      assert lines == [lines[0]] + lines[1..];
    }
  }

  /** Two project chains of one hook have names of one length, so neither name starts the other. */
  lemma {:induction false} SameLengthPrefix(hook: Hook, pid: string, other: string)
    requires IsPid(pid) && IsPid(other)
    ensures Project(hook, pid).Name() <= Project(hook, other).Name() <==> pid == other
  {
    var prefix := Project(hook, "").Name();
    var a, b := Project(hook, pid).Name(), Project(hook, other).Name();
    assert a == prefix + pid && b == prefix + other;
    assert a <= b ==> a == b;
    assert a[|prefix|..] == pid && b[|prefix|..] == other;
  }

  lemma {:induction false} ContainsPrefix(text: string, piece: string, start: string)
    requires start <= piece
    ensures Contains(text, piece) ==> Contains(text, start)
  {
    if Contains(text, piece) {
      var k :| 0 <= k <= |text| && IsAt(text, piece, k);
      assert text[k..k + |start|] == text[k..k + |piece|][..|start|];
      assert IsAt(text, start, k);
    }
  }

  /** In a civil chain the text search finds exactly the jumps to that project. */
  lemma {:induction false} SearchIsExact(line: Line, hook: Hook, pid: string)
    requires IsPid(pid) && Civil(line, hook)
    ensures Mentions(line, Project(hook, pid)) <==> line == Jump(Project(hook, pid))
  {
    var name := Project(hook, pid).Name();
    assert "troshka-" <= name;
    match line
    case Jump(Project(_, other)) => SameLengthPrefix(hook, pid, other);
    case Jump(target) => assert name <= target.Name() ==> "troshka-" <= target.Name();
    case Other(text) =>
      var piece, jump := "jump " + name, "jump troshka-";
      assert jump <= piece;
      ContainsPrefix(text, piece, jump);
    case _ =>
  }

  lemma {:induction false} WithoutKeepsOthers(lines: seq<Line>, chain: Chain, other: Chain)
    requires forall k :: 0 <= k < |lines| ==> (Mentions(lines[k], chain) <==> lines[k] == Jump(chain))
    ensures Jumps(Without(lines, chain), other) == if chain == other then 0 else Jumps(lines, other)
    ensures forall line :: line in Without(lines, chain) <==> line in lines && line != Jump(chain)
  {
    if lines != [] {
      WithoutKeepsOthers(lines[1..], chain, other);
      assert lines == [lines[0]] + lines[1..];
      JumpsAppend(if Mentions(lines[0], chain) then [] else [lines[0]], Without(lines[1..], chain), other);
    }
  }

  lemma {:induction false} WithoutAppend(a: seq<Line>, b: seq<Line>, chain: Chain)
    ensures Without(a + b, chain) == Without(a, chain) + Without(b, chain)
  {
    if a == [] {
      assert a + b == b;
    } else {
      assert (a + b)[1..] == a[1..] + b;
      WithoutAppend(a[1..], b, chain);
    }
  }

  /** Looking at one more line of a listing. */
  lemma {:induction false} WithoutStep(lines: seq<Line>, chain: Chain, k: nat)
    requires k < |lines|
    ensures var now, next := Without(lines[..k], chain) + lines[k..], Without(lines[..k + 1], chain) + lines[k + 1..];
      var at := |now| - (|lines| - k);
      && at >= 0 && next == if Mentions(lines[k], chain) then now[..at] + now[at + 1..] else now
  {
    assert lines[..k + 1] == lines[..k] + [lines[k]];
    WithoutAppend(lines[..k], [lines[k]], chain);
    assert lines[k..] == [lines[k]] + lines[k + 1..];
    assert Without([lines[k]], chain) == if Mentions(lines[k], chain) then [] else [lines[k]];
  }

  lemma {:induction false} WithoutNothing(lines: seq<Line>, chain: Chain)
    requires !AnyMentions(lines, chain)
    ensures Without(lines, chain) == lines
  {
    if lines != [] {
      assert !Mentions(lines[0], chain);
      forall k | 0 <= k < |lines[1..]| ensures !Mentions(lines[1..][k], chain) {
        assert !Mentions(lines[k + 1], chain);
      }
      WithoutNothing(lines[1..], chain);
    }
  }

  lemma {:induction false} WithoutTwice(lines: seq<Line>, chain: Chain)
    ensures Without(Without(lines, chain), chain) == Without(lines, chain)
  {
    if lines != [] {
      WithoutTwice(lines[1..], chain);
      WithoutAppend(if Mentions(lines[0], chain) then [] else [lines[0]], Without(lines[1..], chain), chain);
    }
  }

  /** The project's jump is found exactly when the project is active. */
  lemma {:induction false} FoundIffActive(s: Tables, active: set<string>, hook: Hook, pid: string)
    requires IsPid(pid) && HookOk(s, active, hook)
    ensures AnyMentions(Get(s, Base(hook)), Project(hook, pid)) <==> pid in active
  {
    var lines, chain := Get(s, Base(hook)), Project(hook, pid);
    JumpsPositive(lines, chain);
    forall k | 0 <= k < |lines| ensures Mentions(lines[k], chain) <==> lines[k] == Jump(chain) {
      SearchIsExact(lines[k], hook, pid);
    }
  }

  // ---------- proofs about setup and teardown ----------

  lemma {:induction false} SetupKeepsHook(s: Tables, active: set<string>, pid: string, body: Body, hook: Hook)
    requires Ok(s, active) && Sane(Setup(pid, "nat", body))
    ensures HookOk(AfterSetup(s, pid, body), active + {pid}, hook)
  {
    var t, chain := AfterSetup(s, pid, body), Project(hook, pid);
    assert HookOk(s, active, hook);
    FoundIffActive(s, active, hook, pid);
    var before, after := Get(s, Base(hook)), Get(t, Base(hook));
    assert after == if pid in active then before else before + [Jump(chain)];
    assert Civil(Jump(chain), hook);
    forall q {:trigger Project(hook, q)} | IsPid(q)
      ensures Jumps(after, Project(hook, q)) == if q in active + {pid} then 1 else 0
    {
      JumpsAppend(before, [Jump(chain)], Project(hook, q));
      assert Jumps(before, Project(hook, q)) == if q in active then 1 else 0;
    }
    forall id, q | id in t && id != Base(hook) ensures Jump(Project(hook, q)) !in t[id] {
      assert id.Project? && id.pid == pid ==> OwnLines(body.At(id.hook));
      assert id in s ==> Jump(Project(hook, q)) !in s[id];
    }
    forall target | Jump(target) in after ensures target in t {
      assert target != chain ==> Jump(target) in before;
    }
  }

  /** In a right state, a teardown removes from each base chain its own jump and nothing else. */
  lemma {:induction false} TornDownBase(s: Tables, active: set<string>, pid: string, hook: Hook, other: Chain)
    requires Ok(s, active) && IsPid(pid)
    ensures var before, after := Get(s, Base(hook)), TornDown(s, pid, Base(hook));
      && Jumps(after, other) == (if other == Project(hook, pid) then 0 else Jumps(before, other))
      && forall line :: line in after <==> line in before && line != Jump(Project(hook, pid))
  {
    assert HookOk(s, active, hook);
    var lines, own := Get(s, Base(hook)), Project(hook, pid);
    forall k | 0 <= k < |lines| ensures Mentions(lines[k], own) <==> lines[k] == Jump(own) {
      SearchIsExact(lines[k], hook, pid);
    }
    WithoutKeepsOthers(lines, own, other);
  }

  lemma {:induction false} TeardownKeepsHook(s: Tables, active: set<string>, pid: string, hook: Hook)
    requires Ok(s, active) && IsPid(pid)
    ensures HookOk(AfterTeardown(s, pid), active - {pid}, hook)
  {
    var t, chain := AfterTeardown(s, pid), Project(hook, pid);
    assert HookOk(s, active, hook);
    var before, after := Get(s, Base(hook)), Get(t, Base(hook));
    assert after == TornDown(s, pid, Base(hook));
    TornDownBase(s, active, pid, hook, chain);
    forall k | 0 <= k < |after| ensures Civil(after[k], hook) {
      assert after[k] in after && after[k] in before;
    }
    forall q {:trigger Project(hook, q)} | IsPid(q)
      ensures Jumps(after, Project(hook, q)) == if q in active - {pid} then 1 else 0
    {
      TornDownBase(s, active, pid, hook, Project(hook, q));
      assert Jumps(before, Project(hook, q)) == if q in active then 1 else 0;
    }
    forall id, q | id in t && id != Base(hook) ensures Jump(Project(hook, q)) !in t[id] {
      assert Jump(Project(hook, q)) !in s[id] && t[id] == TornDown(s, pid, id);
      if id.Base? {
        TornDownBase(s, active, pid, id.hook, chain);
      }
    }
    forall q | q in active - {pid} ensures Project(hook, q) in t {
      assert Project(hook, q) in s;
    }
    forall target | Jump(target) in after ensures target in t {
      assert Jump(target) in before && target != chain;
      var k :| 0 <= k < |before| && before[k] == Jump(target);
      assert Civil(before[k], hook);
    }
  }

  /** Any run of setups and teardowns of any projects keeps the shared chains right. */
  lemma {:induction false} RunKeepsOk(s: Tables, active: set<string>, ops: seq<Op>)
    requires Ok(s, active) && forall k :: 0 <= k < |ops| ==> Sane(ops[k])
    ensures Ok(Run(s, ops), ActiveRun(active, ops))
    decreases |ops|
  {
    if ops != [] {
      var op := ops[0];
      var t, next := Apply(s, op), ActiveAfter(active, op);
      forall hook ensures HookOk(t, next, hook) {
        match op
        case Setup(pid, mode, body) =>
          assert HookOk(s, active, hook);
          if NatMode(mode) {
            SetupKeepsHook(s, active, pid, body, hook);
          }
        case Teardown(pid) => TeardownKeepsHook(s, active, pid, hook);
      }
      RunKeepsOk(t, next, ops[1..]);
    }
  }

  /** Repeating a setup changes nothing. */
  lemma {:induction false} SetupTwice(s: Tables, pid: string, body: Body)
    ensures AfterSetup(AfterSetup(s, pid, body), pid, body) == AfterSetup(s, pid, body)
  {
    var t := AfterSetup(s, pid, body);
    forall hook ensures AnyMentions(t[Base(hook)], Project(hook, pid)) {
      var lines, chain := Get(s, Base(hook)), Project(hook, pid);
      if !AnyMentions(lines, chain) {
        assert Mentions((lines + [Jump(chain)])[|lines|], chain);
      }
    }
    var u := AfterSetup(t, pid, body);
    forall id | id in t ensures u[id] == t[id] {
      assert t[id] == SetUp(s, pid, body, id) && u[id] == SetUp(t, pid, body, id);
    }
    SameTables(t, u);
  }

  /** Teardown undoes the setup of an inactive project, up to base chains the setup had to create. */
  lemma {:induction false} TeardownUndoesSetup(s: Tables, active: set<string>, pid: string, body: Body)
    requires Ok(s, active) && IsPid(pid) && pid !in active && s.Keys !! ChainsOf(pid)
    ensures AfterTeardown(AfterSetup(s, pid, body), pid) == WithBases(s)
  {
    forall hook ensures Without(Linked(Get(s, Base(hook)), Project(hook, pid)), Project(hook, pid)) ==
        Get(s, Base(hook)) {
      assert HookOk(s, active, hook);
      FoundIffActive(s, active, hook, pid);
      var lines, chain := Get(s, Base(hook)), Project(hook, pid);
      WithoutAppend(lines, [Jump(chain)], chain);
      WithoutNothing(lines, chain);
      assert Without([Jump(chain)], chain) == [];
    }
    var t := AfterSetup(s, pid, body);
    var u := AfterTeardown(t, pid);
    forall id ensures (id in u <==> id in WithBases(s)) && (id in u ==> u[id] == Get(s, id)) {
      assert IsOf(id, pid) <==> id in ChainsOf(pid);
      assert id in t ==> t[id] == SetUp(s, pid, body, id);
      assert id in u ==> u[id] == TornDown(t, pid, id);
    }
    SameTables(u, WithBases(s));
  }

  /** An operation of one project touches neither another project's chains nor anybody's other rules. */
  lemma {:induction false} Isolation(s: Tables, op: Op, id: Chain)
    requires !IsOf(id, op.pid)
    ensures var t := Apply(s, op);
      if id.Base? then
        Without(Get(t, id), Project(id.hook, op.pid)) == Without(Get(s, id), Project(id.hook, op.pid))
      else
        (id in t <==> id in s) && Get(t, id) == Get(s, id)
  {
    if id.Base? {
      var chain := Project(id.hook, op.pid);
      WithoutAppend(Get(s, id), [Jump(chain)], chain);
      assert Without([Jump(chain)], chain) == [];
      WithoutTwice(Get(s, id), chain);
    }
  }

  /** Why every id is cut to one length: with ids of unequal length, tearing down one project would unlink the other. */
  lemma UnequalIdsInterfere(s: Tables)
    requires s == map[Base(Forward) := [Jump(Project(Forward, "abcd1234ef"))]]
    ensures AfterTeardown(s, "abcd1234")[Base(Forward)] == []
  {
    var long, short := Project(Forward, "abcd1234ef"), Project(Forward, "abcd1234");
    assert short.Name() <= long.Name();
    assert Without([Jump(long)], short) == [];
  }

  // ---------- whole project ids ----------

  predicate IsHex(c: char) { '0' <= c <= '9' || 'a' <= c <= 'f' }

  /** `_validate_project_id`: a lower-case UUID; the pattern lets one line feed follow. */
  predicate IsUuid(id: string) {
    && (|id| == 36 || (|id| == 37 && id[36] == '\n'))
    && forall k :: 0 <= k < 36 ==> if k in {8, 13, 18, 23} then id[k] == '-' else IsHex(id[k])
  }

  /** What is left of an id in the names of chains. */
  function Pid(id: string): string {
    if |id| < 8 then id else id[..8]
  }

  datatype Request = SetUpProject(id: string, mode: string, body: Body) | TearDownProject(id: string)

  /** An id that is not valid is refused. */
  function Serve(s: Tables, request: Request): Tables {
    if !IsUuid(request.id) then s
    else
      match request
      case SetUpProject(id, mode, body) => Apply(s, Setup(Pid(id), mode, body))
      case TearDownProject(id) => Apply(s, Teardown(Pid(id)))
  }

  /** A chain is there as before, with what it held. */
  predicate SameChain(s: Tables, t: Tables, id: Chain) {
    (id in t <==> id in s) && Get(t, id) == Get(s, id)
  }

  /** No request for the project `a` touches a chain of the project `b`. */
  ghost predicate NeverTouches(a: string, b: string) {
    forall s: Tables, request: Request, hook: Hook ::
      request.id == a ==> SameChain(s, Serve(s, request), Project(hook, Pid(b)))
  }

  /** Projects are isolated from each other if and only if the first eight characters of their ids differ. */
  lemma IsolatedIffPidsDiffer(a: string, b: string)
    requires IsUuid(a) && IsUuid(b)
    ensures NeverTouches(a, b) <==> Pid(a) != Pid(b)
  {
    if Pid(a) == Pid(b) {
      var chain := Project(Forward, Pid(b));
      var s: Tables := map[chain := []];
      assert chain !in Serve(s, TearDownProject(a));
      assert !SameChain(s, Serve(s, TearDownProject(a)), chain);
    } else {
      forall s: Tables, request: Request, hook: Hook | request.id == a
        ensures SameChain(s, Serve(s, request), Project(hook, Pid(b)))
      {
        match request
        case SetUpProject(_, mode, body) => Isolation(s, Setup(Pid(a), mode, body), Project(hook, Pid(b)));
        case TearDownProject(_) => Isolation(s, Teardown(Pid(a)), Project(hook, Pid(b)));
      }
    }
  }

  /** Of two projects whose ids begin alike, the second replaces the chains of the first, and they share one jump. */
  lemma SecondReplacesFirst(a: string, b: string, first: Body, second: Body, hook: Hook)
    requires IsUuid(a) && IsUuid(b) && Pid(a) == Pid(b)
    ensures var once := Serve(map[], SetUpProject(a, "nat", first));
      var twice := Serve(once, SetUpProject(b, "nat", second));
      && Get(once, Project(hook, Pid(a))) == first.At(hook)
      && Get(twice, Project(hook, Pid(a))) == second.At(hook)
      && Get(twice, Base(hook)) == [Jump(Project(hook, Pid(a)))]
  {
    hide IsUuid, Pid;
    var once := Serve(map[], SetUpProject(a, "nat", first));
    var chain := Project(hook, Pid(a));
    assert Get(once, Base(hook)) == [Jump(chain)];
    assert Mentions(Get(once, Base(hook))[0], chain);
  }

  const MIDDLE := "-0000-4000-8000-00000000000"

  /** The id that begins with these eight digits and ends with this one. */
  function IdOf(pid: string, last: char): string { pid + MIDDLE + [last] }

  lemma IdOfIsUuid(pid: string, last: char)
    requires |pid| == 8 && IsHex(last) && forall k :: 0 <= k < 8 ==> IsHex(pid[k])
    ensures IsUuid(IdOf(pid, last)) && Pid(IdOf(pid, last)) == pid
  {
    var id := IdOf(pid, last);
    assert id[..8] == pid;
    forall k | 0 <= k < 36 ensures if k in {8, 13, 18, 23} then id[k] == '-' else IsHex(id[k]) {
      if k < 8 {
        assert id[k] == pid[k];
      } else if k < 35 {
        assert id[k] == MIDDLE[k - 8];
        MiddleIsRight(k - 8);
      } else {
        assert id[k] == last;
      }
    }
  }

  lemma MiddleIsRight(j: nat)
    requires j < 27
    ensures |MIDDLE| == 27 && if j in {0, 5, 10, 15} then MIDDLE[j] == '-' else IsHex(MIDDLE[j])
  {
  }

  /** There are such ids. */
  lemma IdsBeginAlike(pid: string)
    requires |pid| == 8 && forall k :: 0 <= k < 8 ==> IsHex(pid[k])
    ensures exists a, b :: a != b && IsUuid(a) && IsUuid(b) && Pid(a) == Pid(b) == pid
  {
    hide IsUuid, Pid;
    IdOfIsUuid(pid, '1');
    IdOfIsUuid(pid, '2');
    var a, b := IdOf(pid, '1'), IdOf(pid, '2');
    assert a[35] == '1' && b[35] == '2';
  }

  // ---------- what the chains do to traffic ----------

  /** A packet on its way through the host: where it comes in, where it goes out, and whom it is from. */
  datatype Traffic = Traffic(iif: string, oif: string, saddr: Ip)

  /** Some rule of a forward chain accepts the packet; a setup writes no rule that drops one. */
  predicate Accepts(lines: seq<Line>, q: Traffic) {
    exists k :: 0 <= k < |lines| && lines[k] in {AcceptFrom(q.iif), AcceptTo(q.oif)}
  }

  /** Some rule of a postrouting chain gives the packet the host's own address. */
  predicate Masquerades(lines: seq<Line>, q: Traffic) {
    exists k :: 0 <= k < |lines| && lines[k].Masquerade? && lines[k].cidr.Has(q.saddr)
  }

  // ---------- the host's tables, changed in place ----------

  datatype Gateway = Gateway(mode: string, outboundPolicy: string, outboundPorts: string, forwards: seq<PortForward>)

  function DnatLines(rules: seq<Dnat>): seq<Line> {
    seq(|rules|, k requires 0 <= k < |rules| => DnatLine(rules[k]))
  }

  /** The NAT rules of a chain. */
  function DnatsOf(lines: seq<Line>): seq<Dnat> {
    if lines == [] then []
    else (if lines[0].DnatLine? then [lines[0].rule] else []) + DnatsOf(lines[1..])
  }

  lemma {:induction false} DnatsOfLines(rules: seq<Dnat>)
    ensures DnatsOf(DnatLines(rules)) == rules
  {
    if rules != [] {
      assert DnatLines(rules)[1..] == DnatLines(rules[1..]);
      DnatsOfLines(rules[1..]);
    } else {
      assert DnatLines(rules) == [];
    }
  }

  /** The host's end of the veth pair of a project. */
  function HostVeth(pid: string): string { "ve" + pid + "h" }

  /** The third octet of a project's transit subnet is the low byte of its first VNI. */
  function Octet(firstVni: nat): nat { firstVni % 256 }

  /** The DNAT rules of a project's gateway. */
  function PortForwardLines(gateway: Gateway, octet3: nat): seq<Line> {
    if gateway.mode == "nat-portforward" then DnatLines(HostRules(gateway.forwards, octet3, |gateway.forwards|)) else []
  }

  /** What a project's gateway wants on the host. */
  function HostBody(veth: string, cidr: Subnet, gateway: Gateway, octet3: nat): Body {
    Body([AcceptFrom(veth), AcceptTo(veth)], [Masquerade(cidr)],
         PortForwardLines(gateway, octet3))
  }

  /** A project's forward chain accepts what uses its veth, and its postrouting chain masquerades its subnet. */
  lemma BodyPasses(veth: string, cidr: Subnet, gateway: Gateway, octet3: nat)
    ensures var body := HostBody(veth, cidr, gateway, octet3); forall q: Traffic ::
      && (Accepts(body.forward, q) <==> q.iif == veth || q.oif == veth)
      && (Masquerades(body.post, q) <==> cidr.Has(q.saddr))
  {
    var body := HostBody(veth, cidr, gateway, octet3);
    assert body.forward[0] == AcceptFrom(veth) && body.forward[1] == AcceptTo(veth);
    assert body.post[0] == Masquerade(cidr);
  }

  /** The map both port-forward loops share says for each complete forward where it was put. */
  predicate Agrees(pfTransitIps: map<nat, Ip>, forwards: seq<PortForward>, octet3: nat) {
    forall k :: 0 <= k < |forwards| && forwards[k].Complete() ==>
      k in pfTransitIps && pfTransitIps[k] == TransitIp(octet3, k)
  }

  /** The tables once every chain a project needs is there and its own are empty. */
  function Created(s: Tables, pid: string): Tables {
    map id | id in s.Keys + Bases() + ChainsOf(pid) :: if IsOf(id, pid) then [] else Get(s, id)
  }

  lemma CreatedTables(s: Tables, t: Tables, pid: string)
    requires t == s[Base(Forward) := Get(s, Base(Forward))][Base(Postrouting) := Get(s, Base(Postrouting))]
                  [Base(Prerouting) := Get(s, Base(Prerouting))]
                  [Project(Forward, pid) := []][Project(Postrouting, pid) := []][Project(Prerouting, pid) := []]
    ensures t == Created(s, pid)
  {
    forall id ensures (id in t <==> id in Created(s, pid)) && (id in t ==> t[id] == Created(s, pid)[id]) {
      assert !id.Foreign? ==> id.hook.Forward? || id.hook.Postrouting? || id.hook.Prerouting?;
      assert id.Base? ==> id == Base(Forward) || id == Base(Postrouting) || id == Base(Prerouting);
      assert IsOf(id, pid) ==>
          id == Project(Forward, pid) || id == Project(Postrouting, pid) || id == Project(Prerouting, pid);
    }
    SameTables(t, Created(s, pid));
  }

  /** The tables with the jumps of a project in every base chain. */
  function LinkedTables(s: Tables, pid: string): Tables {
    map id | id in s :: if id.Base? then Linked(s[id], Project(id.hook, pid)) else s[id]
  }

  /** The tables with a project's own chains filled. */
  function Filled(s: Tables, pid: string, body: Body): Tables {
    s[Project(Forward, pid) := body.forward][Project(Postrouting, pid) := body.post]
     [Project(Prerouting, pid) := body.pre]
  }

  lemma FilledTables(s: Tables, pid: string, body: Body)
    ensures Filled(LinkedTables(Created(s, pid), pid), pid, body) == AfterSetup(s, pid, body)
  {
    hide Linked, Get;
    var linked := LinkedTables(Created(s, pid), pid);
    var t := Filled(linked, pid, body);
    forall id | id in t ensures t[id] == SetUp(s, pid, body, id) {
      assert !IsOf(id, pid) ==> t[id] == linked[id] && Created(s, pid)[id] == Get(s, id);
    }
    SameTables(t, AfterSetup(s, pid, body));
  }

  function PartlyLinked(s: Tables, pid: string, done: nat): Tables {
    map id | id in s :: if id.Base? && Rank(id.hook) < done then Linked(s[id], Project(id.hook, pid)) else s[id]
  }

  lemma PartlyLinkedStep(s: Tables, pid: string, hook: Hook)
    requires Base(hook) in s
    ensures PartlyLinked(s, pid, Rank(hook) + 1) ==
            PartlyLinked(s, pid, Rank(hook))[Base(hook) := Linked(s[Base(hook)], Project(hook, pid))]
  {
  }

  function PartlyTornDown(s: Tables, pid: string, done: nat): Tables {
    map id | id in s && !(IsOf(id, pid) && Rank(id.hook) < done) ::
      if id.Base? && Rank(id.hook) < done then TornDown(s, pid, id) else s[id]
  }

  lemma PartlyTornDownStep(s: Tables, pid: string, hook: Hook)
    ensures var t := PartlyTornDown(s, pid, Rank(hook));
      PartlyTornDown(s, pid, Rank(hook) + 1) ==
      (if Base(hook) in t then t[Base(hook) := Without(t[Base(hook)], Project(hook, pid))] else t)
      - {Project(hook, pid)}
  {
    hide Without;
    var t, u := PartlyTornDown(s, pid, Rank(hook)), PartlyTornDown(s, pid, Rank(hook) + 1);
    var v := (if Base(hook) in t then t[Base(hook) := Without(t[Base(hook)], Project(hook, pid))] else t)
             - {Project(hook, pid)};
    forall id ensures (id in u <==> id in v) && (id in u ==> u[id] == v[id]) {
      if !id.Foreign? {
        assert Rank(id.hook) < Rank(hook) + 1 <==> Rank(id.hook) < Rank(hook) || id.hook == hook;
      }
    }
    SameTables(u, v);
  }

  class Host {
    var chains: Tables

    method AddChain(id: Chain)
      modifies this
      ensures chains == old(chains)[id := Get(old(chains), id)]
    {
      if id !in chains {
        chains := chains[id := []];
      }
    }

    method FlushChain(id: Chain)
      modifies this
      ensures chains == if id in old(chains) then old(chains)[id := []] else old(chains)
    {
      if id in chains {
        chains := chains[id := []];
      }
    }

    method AddRule(id: Chain, line: Line)
      requires id in chains
      modifies this
      ensures chains == old(chains)[id := old(chains)[id] + [line]]
    {
      chains := chains[id := chains[id] + [line]];
    }

    /** Deleting a chain fails while a rule still jumps to it. */
    method DeleteChain(id: Chain)
      modifies this
      ensures chains == if exists c :: c in old(chains) && Jump(id) in old(chains)[c] then old(chains)
                        else old(chains) - {id}
    {
      if !exists c :: c in chains && Jump(id) in chains[c] {
        chains := chains - {id};
      }
    }

    /** `_setup_host_nftables`: create what is missing, flush the project's chains, link and fill them. */
    method SetupHostNftables(pid: string, veth: string, cidr: Subnet, gateway: Option<Gateway>,
                             pfTransitIps: map<nat, Ip>, octet3: nat)
      requires gateway.Some? && gateway.value.mode == "nat-portforward" ==>
        Agrees(pfTransitIps, gateway.value.forwards, octet3)
      modifies this
      ensures gateway == None || !NatMode(gateway.value.mode) ==> chains == old(chains)
      ensures gateway.Some? && NatMode(gateway.value.mode) ==>
        chains == AfterSetup(old(chains), pid, HostBody(veth, cidr, gateway.value, octet3))
    {
      if gateway == None || !NatMode(gateway.value.mode) {
        return;
      }
      hide Linked, Get, AfterSetup, NatMode, HostBody, Filled;
      FilledTables(chains, pid, HostBody(veth, cidr, gateway.value, octet3));
      CreateChains(pid);
      LinkBases(pid);
      FillChains(pid, veth, cidr, gateway.value, pfTransitIps, octet3);
    }

    /** The rules of the project's own chains, which were just flushed. */
    method FillChains(pid: string, veth: string, cidr: Subnet, gateway: Gateway, pfTransitIps: map<nat, Ip>,
                      octet3: nat)
      requires forall hook :: Project(hook, pid) in chains && chains[Project(hook, pid)] == []
      requires gateway.mode == "nat-portforward" ==> Agrees(pfTransitIps, gateway.forwards, octet3)
      modifies this
      ensures chains == Filled(old(chains), pid, HostBody(veth, cidr, gateway, octet3))
    {
      ghost var body := HostBody(veth, cidr, gateway, octet3);
      AddRule(Project(Forward, pid), AcceptFrom(veth));
      AddRule(Project(Forward, pid), AcceptTo(veth));
      AddRule(Project(Postrouting, pid), Masquerade(cidr));
      SetupHostPortForwardDnat(pid, gateway, pfTransitIps, octet3);
      assert [] + [AcceptFrom(veth)] + [AcceptTo(veth)] == body.forward;
      assert [] + [Masquerade(cidr)] == body.post && [] + body.pre == body.pre;
    }

    /** Create the chain if it is missing, and flush it. */
    method RecreateChain(id: Chain)
      modifies this
      ensures chains == old(chains)[id := []]
    {
      AddChain(id);
      FlushChain(id);
    }

    method CreateChains(pid: string)
      modifies this
      ensures chains == Created(old(chains), pid)
    {
      AddChain(Base(Forward));
      AddChain(Base(Postrouting));
      AddChain(Base(Prerouting));
      RecreateChain(Project(Forward, pid));
      RecreateChain(Project(Postrouting, pid));
      RecreateChain(Project(Prerouting, pid));
      CreatedTables(old(chains), chains, pid);
    }

    /** The jump is added to a base chain only if its listing does not already mention it. */
    method LinkBases(pid: string)
      requires forall id: Chain :: id.Base? ==> id in chains
      modifies this
      ensures chains == LinkedTables(old(chains), pid)
    {
      ghost var before := chains;
      for i := 0 to 3
        invariant chains == PartlyLinked(before, pid, i)
      {
        var hook := Nth(i);
        PartlyLinkedStep(before, pid, hook);
        if !AnyMentions(chains[Base(hook)], Project(hook, pid)) {
          AddRule(Base(hook), Jump(Project(hook, pid)));
        }
      }
    }

    /** `_setup_host_port_forward_dnat`: one rule for each complete forward with a way in. */
    method SetupHostPortForwardDnat(pid: string, gateway: Gateway, pfTransitIps: map<nat, Ip>, octet3: nat)
      requires Project(Prerouting, pid) in chains
      requires gateway.mode == "nat-portforward" ==> Agrees(pfTransitIps, gateway.forwards, octet3)
      modifies this
      ensures chains == old(chains)[Project(Prerouting, pid) := old(chains)[Project(Prerouting, pid)] +
                                    PortForwardLines(gateway, octet3)]
    {
      var pre := Project(Prerouting, pid);
      if gateway.mode != "nat-portforward" {
        assert chains[pre] + [] == chains[pre];
        return;
      }
      assert DnatLines([]) == [];
      assert chains[pre] + [] == chains[pre];
      for k := 0 to |gateway.forwards|
        invariant pre in chains
        invariant chains == old(chains)[pre := old(chains)[pre] + DnatLines(HostRules(gateway.forwards, octet3, k))]
      {
        var f := gateway.forwards[k];
        ghost var rules, next := HostRules(gateway.forwards, octet3, k), HostRules(gateway.forwards, octet3, k + 1);
        if f.Complete() {
          var transitIp := pfTransitIps[k];
          if f.privateIp.Some? {
            AddRule(pre, DnatLine(Dnat(f.privateIp, f.extPort, transitIp, f.extPort)));
          } else if f.transitPort != 0 {
            AddRule(pre, DnatLine(Dnat(None, f.transitPort, transitIp, f.EffectivePort())));
          }
        }
        assert DnatLines(next) == DnatLines(rules) + DnatLines(next[|rules|..]);
        assert chains[pre] == old(chains)[pre] + DnatLines(next);
      }
    }

    /** `_remove_nft_jump_rules`: every listed line that mentions the chain is deleted. */
    method RemoveJumps(base: Chain, chain: Chain)
      modifies this
      ensures chains == if base in old(chains) then old(chains)[base := Without(old(chains)[base], chain)]
          else old(chains)
    {
      if base !in chains {
        return;
      }
      var listing := chains[base];
      var left := listing;  // what the chain holds
      assert Without(listing[..0], chain) + listing[0..] == listing;
      for k := 0 to |listing|
        invariant left == Without(listing[..k], chain) + listing[k..]
        invariant chains == old(chains)[base := left]
      {
        WithoutStep(listing, chain, k);
        if Mentions(listing[k], chain) {
          var at := |left| - (|listing| - k);
          left := left[..at] + left[at + 1..];
          chains := chains[base := left];
        }
      }
      assert listing[..|listing|] == listing && listing[|listing|..] == [];
      assert left == Without(listing, chain);
    }

    /** `_teardown_host_nftables`: unlink, flush and delete the project's chains. */
    method TeardownHostNftables(pid: string, ghost active: set<string>)
      requires Ok(chains, active) && IsPid(pid)
      modifies this
      ensures chains == AfterTeardown(old(chains), pid)
    {
      hide Without, Ok, IsPid;
      ghost var before := chains;
      for i := 0 to 3
        invariant chains == PartlyTornDown(before, pid, i)
      {
        var hook := Nth(i);
        PartlyTornDownStep(before, pid, hook);
        RemoveJumps(Base(hook), Project(hook, pid));
        ghost var unlinked := chains;
        FlushChain(Project(hook, pid));
        forall c | c in chains ensures Jump(Project(hook, pid)) !in chains[c] {
          NoJumpLeft(before, active, pid, hook, c);
        }
        DeleteChain(Project(hook, pid));
        assert chains == unlinked - {Project(hook, pid)};
      }
      SameTables(chains, AfterTeardown(before, pid));
    }
  }

  /** Nothing but its base chain jumps to a project's chain, and that jump is found by the search. */
  lemma {:induction false} NoJumpLeft(s: Tables, active: set<string>, pid: string, hook: Hook, c: Chain)
    requires Ok(s, active) && IsPid(pid)
    ensures c in s && c != Base(hook) ==> Jump(Project(hook, pid)) !in s[c]
    ensures c.Base? ==> Jump(Project(hook, pid)) !in TornDown(s, pid, c)
  {
    assert HookOk(s, active, hook);
    if c.Base? {
      assert HookOk(s, active, c.hook);
      var own, lines := Project(c.hook, pid), Get(s, c);
      forall k | 0 <= k < |lines| ensures Mentions(lines[k], own) <==> lines[k] == Jump(own) {
        SearchIsExact(lines[k], c.hook, pid);
      }
      WithoutKeepsOthers(lines, own, own);
    }
  }
}
