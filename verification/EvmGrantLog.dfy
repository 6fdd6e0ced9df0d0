/** EVM grant-role to the letter: which texts are addresses, which calls a run sends or
    proposes and in which order, when it fails and what it leaves then. */
module EvmGrantLog {
  import opened Wrappers
  import opened Evm
  import opened RoleTables
  import opened Sequences
  import opened EvmGrantRole

  // ----- address text

  /** The last `n` hexadecimal digits of a number, in lower case. */
  function Render(a: nat, n: nat): string {
    if n == 0 then "" else Render(a / 16, n - 1) + ["0123456789abcdef"[a % 16]]
  }

  function Power(n: nat): nat {
    if n == 0 then 1 else 16 * Power(n - 1)
  }

  lemma DigitIs(c: char, d: nat)
    requires d < 16
    ensures Upper(c) == Upper("0123456789abcdef"[d]) <==> IsHexDigit(c) && HexDigit(c) == d
    ensures IsHexDigit("0123456789abcdef"[d])
  {
    var digits := "0123456789abcdef";
    assert digits[0] == '0' && digits[1] == '1' && digits[2] == '2' && digits[3] == '3' && digits[4] == '4';
    assert digits[5] == '5' && digits[6] == '6' && digits[7] == '7' && digits[8] == '8' && digits[9] == '9';
    assert digits[10] == 'a' && digits[11] == 'b' && digits[12] == 'c' && digits[13] == 'd' && digits[14] == 'e';
    assert digits[15] == 'f';
  }

  /** Reading digits is the inverse of writing them, up to case. */
  lemma {:induction false} ReadsBack(s: string, a: nat)
    ensures a < Power(|s|) && SameUpToCase(s, Render(a, |s|)) <==>
      (forall i :: 0 <= i < |s| ==> IsHexDigit(s[i])) && HexValue(s) == a
  {
    if s != "" {
      var n := |s| - 1;
      var rest, c := s[..n], s[n];
      var q, d := a / 16, a % 16;
      ReadsBack(rest, q);
      DigitIs(c, d);
      RenderLength(q, n);
      assert s == rest + [c];
      assert SameUpToCase(s, Render(a, |s|)) <==>
        SameUpToCase(rest, Render(q, n)) && Upper(c) == Upper("0123456789abcdef"[d]) by {
        SameOneMore(rest, c, Render(q, n), "0123456789abcdef"[d]);
      }
      assert a == 16 * q + d && (a < Power(|s|) <==> q < Power(n));
    }
  }

  lemma {:induction false} RenderLength(a: nat, n: nat)
    ensures |Render(a, n)| == n && forall i :: 0 <= i < n ==> IsHexDigit(Render(a, n)[i])
  {
    if n > 0 {
      RenderLength(a / 16, n - 1);
      DigitIs('0', a % 16);
    }
  }

  lemma SameOneMore(s: string, c: char, t: string, d: char)
    requires |s| == |t|
    ensures SameUpToCase(s + [c], t + [d]) <==> SameUpToCase(s, t) && Upper(c) == Upper(d)
  {
    var x, y := s + [c], t + [d];
    assert forall i :: 0 <= i < |s| ==> x[i] == s[i] && y[i] == t[i];
    assert x[|s|] == c && y[|t|] == d;
  }

  /** Exactly the non-zero numbers below 16 to the 40th are addresses, written with 40
      digits in either case, and with or without 0x. */
  lemma ParseIs(raw: string, a: Address)
    ensures ParseEVMAddress(raw) == Some(a) <==>
      && 0 < a < Power(40)
      && (SameUpToCase(raw, Render(a, 40)) || SameUpToCase(raw, "0x" + Render(a, 40)))
  {
    RenderLength(a, 40);
    var text := "0x" + Render(a, 40);
    assert text[0] == '0' && text[1] == 'x' && text[2..] == Render(a, 40);
    if |raw| == 40 {
      ReadsBack(raw, a);
      assert Render(a, 40)[1] != 'x';
      assert IsHexDigit(Render(a, 40)[1]);
      assert raw[1] in {'x', 'X'} ==> Upper(raw[1]) == 'X' && !SameUpToCase(raw, Render(a, 40)) by {
        assert Upper('x') == 'X' && Upper(Render(a, 40)[1]) != 'X';
      }
    } else if |raw| == 42 {
      ReadsBack(raw[2..], a);
      PrefixSame(raw, Render(a, 40));
    }
  }

  lemma PrefixSame(raw: string, digits: string)
    requires |raw| == |digits| + 2
    ensures SameUpToCase(raw, "0x" + digits) <==>
      raw[0] == '0' && raw[1] in {'x', 'X'} && SameUpToCase(raw[2..], digits)
  {
    var text, rest := "0x" + digits, raw[2..];
    assert Upper('x') == 'X' && Upper('0') == '0';
    assert (Upper(raw[0]) == '0' <==> raw[0] == '0') && (Upper(raw[1]) == 'X' <==> raw[1] in {'x', 'X'});
    hide Upper;
    assert forall i :: 0 <= i < |rest| ==> rest[i] == raw[i + 2] && digits[i] == text[i + 2];
    assert text[0] == '0' && text[1] == 'x';
    if raw[0] == '0' && raw[1] in {'x', 'X'} && SameUpToCase(rest, digits) {
      forall i | 0 <= i < |raw|
        ensures Upper(raw[i]) == Upper(text[i])
      {
        assert i >= 2 ==> Upper(rest[i - 2]) == Upper(digits[i - 2]);
      }
    }
    if SameUpToCase(raw, text) {
      forall i | 0 <= i < |rest|
        ensures Upper(rest[i]) == Upper(digits[i])
      {
        assert Upper(raw[i + 2]) == Upper(text[i + 2]);
      }
    }
  }

  // ----- the calls of a run

  predicate Supported(grant: RoleGrant) {
    grant.role in {Proposer, Canceller, Bypasser, Executor, Admin} && Parses(grant.addresses)
  }

  /** What the grants ask for, one call for each address, in order, repeats included. */
  function Asked(grants: seq<RoleGrant>): seq<Call>
    requires forall g :: g in grants ==> Supported(g)
  {
    if grants == [] then []
    else
      var g := grants[|grants| - 1];
      assert g in grants && Supported(g);
      Asked(grants[..|grants| - 1])
      + seq(|g.addresses|, i requires 0 <= i < |g.addresses| =>
          GrantCall(g.role, ParseEVMAddress(g.addresses[i]).value))
  }

  /** Admins are not read; any other member is known to need nothing. */
  predicate KnownMember(tables: Tables, call: Call) {
    match call.role
    case Proposer => call.account in tables.proposers
    case Canceller => call.account in tables.cancellers
    case Bypasser => call.account in tables.bypassers
    case Executor => call.account in tables.executors
    case Admin => false
    case Unsupported => false
  }

  /** Those to propose: all but the known members, repeats included. */
  function ToPropose(tables: Tables, calls: seq<Call>): seq<Call> {
    if calls == [] then []
    else
      var call := calls[|calls| - 1];
      ToPropose(tables, calls[..|calls| - 1]) + if KnownMember(tables, call) then [] else [call]
  }

  /** Those to send: each once, unless reported or a known member. */
  function ToSend(w: World, calls: seq<Call>): seq<Call> {
    if calls == [] then []
    else
      var rest, call := calls[..|calls| - 1], calls[|calls| - 1];
      ToSend(w, rest)
      + if call in rest || OpInput(call, false) in w.reports || KnownMember(w.tables, call) then [] else [call]
  }

  lemma {:induction false} ToSendMembers(w: World, calls: seq<Call>)
    ensures forall call :: call in ToSend(w, calls) <==>
      call in calls && OpInput(call, false) !in w.reports && !KnownMember(w.tables, call)
  {
    if calls != [] {
      var rest, call := calls[..|calls| - 1], calls[|calls| - 1];
      assert calls == rest + [call];
      ToSendMembers(w, rest);
    }
  }

  function Sent(calls: seq<Call>): set<OpInput> {
    set call | call in calls :: OpInput(call, false)
  }

  /** The world after sending `calls`, all for real roles. */
  ghost predicate SentOff(w: World, calls: seq<Call>, w': World) {
    && w'.sent == w.sent + calls
    && w'.reports == w.reports + Sent(calls)
    && forall r: Role, a :: a in w'.tables.Get(r) <==> a in w.tables.Get(r) || GrantCall(r, a) in calls
  }

  lemma SentOneMore(calls: seq<Call>, call: Call)
    ensures Sent(calls + [call]) == Sent(calls) + {OpInput(call, false)}
    ensures forall c :: OpInput(c, false) in Sent(calls) <==> c in calls
  {}

  lemma NothingSent(w: World)
    ensures SentOff(w, [], w) && ToSend(w, []) == []
  {}

  /** What a direct run comes to after it has been asked for `calls`. */
  ghost predicate Reached(w: World, deployer: Address, calls: seq<Call>, w': World, r: Result<seq<Call>, Error>) {
    if ToSend(w, calls) == [] then w' == w && r == Success([])
    else if deployer in w.tables.admins then SentOff(w, ToSend(w, calls), w') && r == Success([])
    else w' == w && r == Failure(NotAdmin)
  }

  /** One more address: either the code found it among the members read since `w`, or
      it goes on to the grant. */
  lemma OneAsked(w: World, w1: World, read: Tables, deployer: Address, calls: seq<Call>, call: Call)
    requires call.role != Unsupported && Reached(w, deployer, calls, w1, Success([]))
    requires forall r: Role :: w.tables.Get(r) <= read.Get(r) <= w1.tables.Get(r)
    ensures
      var (w2, r2) := if call.role != Admin && call.account in read.Get(call.role) then (w1, Success([]))
                      else GrantOne(w1, deployer, false, call);
      Reached(w, deployer, calls + [call], w2, r2)
  {
    ToSendMembers(w, calls);
    assert (calls + [call])[..|calls|] == calls;
    SentOneMore(ToSend(w, calls), call);
    assert KnownMember(w.tables, call) <==> call.role != Admin && call.account in w.tables.Get(call.role);
    assert call == GrantCall(call.role, call.account);
    NothingSent(w);
    AdminStays(w, w1, calls, deployer);
    var todo := ToSend(w, calls);
    if call.role != Admin && call.account in read.Get(call.role) {
      assert KnownMember(w.tables, call) || call in calls;
    } else if OpInput(call, false) in w1.reports {
      assert OpInput(call, false) in w.reports || call in calls;
    } else {
      assert call !in calls && !KnownMember(w.tables, call);
      assert ToSend(w, calls + [call]) == todo + [call];
      if deployer in w.tables.admins {
        OneSent(w, w1, deployer, todo, call);
      }
    }
  }

  lemma AdminStays(w: World, w1: World, calls: seq<Call>, deployer: Address)
    requires Reached(w, deployer, calls, w1, Success([]))
    ensures deployer in w1.tables.admins <==> deployer in w.tables.admins
  {
    assert deployer in w1.tables.Get(Admin) <==>
      deployer in w.tables.Get(Admin) || GrantCall(Admin, deployer) in ToSend(w, calls);
  }

  lemma OneSent(w: World, w1: World, deployer: Address, todo: seq<Call>, call: Call)
    requires SentOff(w, todo, w1) && call.role != Unsupported && deployer in w1.tables.admins
    requires OpInput(call, false) !in w1.reports
    ensures
      var (w2, r2) := GrantOne(w1, deployer, false, call);
      r2 == Success([]) && SentOff(w, todo + [call], w2)
  {
    var w2 := GrantOne(w1, deployer, false, call).0;
    SentOneMore(todo, call);
    assert w.sent + todo + [call] == w.sent + (todo + [call]);
    forall r: Role, a
      ensures a in w2.tables.Get(r) <==> a in w.tables.Get(r) || GrantCall(r, a) in todo + [call]
    {
      assert a in w2.tables.Get(r) <==> a in w1.tables.Get(r) || (r == call.role && a == call.account);
    }
  }

  // ----- one grant

  lemma CallsForOneMore(role: Role, list: seq<Address>, a: Address)
    ensures CallsFor(role, list + [a]) == CallsFor(role, list) + [GrantCall(role, a)]
    ensures CallsFor(role, []) == []
  {}

  /** What has been sent stays sent. */
  lemma TablesGrow(w: World, deployer: Address, calls: seq<Call>, more: seq<Call>, w1: World, w2: World)
    requires Reached(w, deployer, calls, w1, Success([])) && Reached(w, deployer, calls + more, w2, Success([]))
    ensures forall r: Role :: w.tables.Get(r) <= w1.tables.Get(r) <= w2.tables.Get(r)
  {
    ToSendMembers(w, calls);
    ToSendMembers(w, calls + more);
    assert forall call :: call in calls ==> call in calls + more;
    forall r: Role, a | a in w1.tables.Get(r)
      ensures a in w2.tables.Get(r)
    {}
  }

  /** Once it has failed for want of the admin role, a direct run stays where it is. */
  lemma StaysFailed(w: World, deployer: Address, calls: seq<Call>, call: Call)
    requires Reached(w, deployer, calls, w, Failure(NotAdmin))
    ensures Reached(w, deployer, calls + [call], w, Failure(NotAdmin))
  {
    assert (calls + [call])[..|calls|] == calls;
  }

  lemma {:induction false} EachAsked(w: World, w1: World, deployer: Address, calls: seq<Call>, role: Role,
                                     list: seq<Address>)
    requires role != Unsupported && Reached(w, deployer, calls, w1, Success([]))
    ensures
      var needed := Difference(list, AddressesForRole(w1.tables, role).value);
      var (w2, r2) := GrantEach(w1, deployer, false, role, needed);
      Reached(w, deployer, calls + CallsFor(role, list), w2, r2)
  {
    hide Reached;
    var existing := AddressesForRole(w1.tables, role).value;
    if list == [] {
      CallsForOneMore(role, [], 0);
      assert calls + [] == calls;
    } else {
      var rest, a := list[..|list| - 1], list[|list| - 1];
      assert list == rest + [a];
      EachAsked(w, w1, deployer, calls, role, rest);
      CallsForOneMore(role, rest, a);
      var so, call := calls + CallsFor(role, rest), GrantCall(role, a);
      assert so + [call] == calls + CallsFor(role, list);
      var needed := Difference(rest, existing);
      assert (needed + [a])[..|needed|] == needed;
      var (w2, r2) := GrantEach(w1, deployer, false, role, needed);
      ReachedResult(w, deployer, so, w2, r2);
      assert Difference(list, existing) == if a in existing then needed else needed + [a] by {
        assert needed + [] == needed;
      }
      if r2.Failure? {
        StaysFailed(w, deployer, so, call);
      } else {
        TablesGrow(w, deployer, calls, CallsFor(role, rest), w1, w2);
        OneAsked(w, w2, w1.tables, deployer, so, call);
        var none: seq<Call> := [];
        assert none + none == none;
        if a in existing {
          assert role != Admin && a in w1.tables.Get(role);
        } else {
          assert !(role != Admin && a in w1.tables.Get(role));
          var (w3, r3) := GrantOne(w2, deployer, false, call);
          assert GrantEach(w1, deployer, false, role, needed + [a]) == (w3, r3);
        }
      }
    }
  }

  lemma ReachedResult(w: World, deployer: Address, calls: seq<Call>, w': World, r: Result<seq<Call>, Error>)
    requires Reached(w, deployer, calls, w', r)
    ensures r == Success([]) || (r == Failure(NotAdmin) && w' == w)
  {}

  // ----- a whole run

  /** How many grants come before the first that is not supported. */
  function Leading(grants: seq<RoleGrant>): (n: nat)
    ensures n <= |grants| && (forall g :: g in grants[..n] ==> Supported(g))
    ensures n < |grants| ==> !Supported(grants[n])
  {
    if grants == [] then 0
    else
      var rest, g := grants[..|grants| - 1], grants[|grants| - 1];
      var n := Leading(rest);
      assert grants == rest + [g] && grants[..n] == rest[..n];
      if n == |rest| && Supported(g) then |grants| else n
  }

  lemma AskedOneMore(rest: seq<RoleGrant>, g: RoleGrant)
    requires (forall h :: h in rest ==> Supported(h)) && Supported(g)
    ensures Asked(rest + [g]) == Asked(rest) + CallsFor(g.role, Parsed(g.addresses))
  {
    assert (rest + [g])[..|rest|] == rest;
    assert CallsFor(g.role, Parsed(g.addresses)) ==
      seq(|g.addresses|, i requires 0 <= i < |g.addresses| =>
        GrantCall(g.role, ParseEVMAddress(g.addresses[i]).value));
  }

  lemma {:induction false} AllAsked(w: World, deployer: Address, grants: seq<RoleGrant>)
    requires forall g :: g in grants ==> Supported(g)
    ensures
      var (w', r) := Run(w, deployer, false, grants);
      Reached(w, deployer, Asked(grants), w', r)
  {
    hide Reached, GrantEach, Difference;
    if grants == [] {
      NothingAsked(w, deployer);
    } else {
      var rest, g := grants[..|grants| - 1], grants[|grants| - 1];
      assert grants == rest + [g];
      AllAsked(w, deployer, rest);
      AskedOneMore(rest, g);
      var (w1, r1) := Run(w, deployer, false, rest);
      ReachedResult(w, deployer, Asked(rest), w1, r1);
      if r1.Failure? {
        StillFailed(w, deployer, Asked(rest), CallsFor(g.role, Parsed(g.addresses)));
      } else {
        EachAsked(w, w1, deployer, Asked(rest), g.role, Parsed(g.addresses));
        var none: seq<Call> := [];
        assert none + none == none;
        var needed := Difference(Parsed(g.addresses), AddressesForRole(w1.tables, g.role).value);
        var (w2, r2) := GrantEach(w1, deployer, false, g.role, needed);
        ReachedResult(w, deployer, Asked(grants), w2, r2);
      }
    }
  }

  lemma NothingAsked(w: World, deployer: Address)
    ensures Reached(w, deployer, Asked([]), w, Success([]))
  {}

  lemma {:induction false} StillFailed(w: World, deployer: Address, calls: seq<Call>, more: seq<Call>)
    requires Reached(w, deployer, calls, w, Failure(NotAdmin))
    ensures Reached(w, deployer, calls + more, w, Failure(NotAdmin))
  {
    if more == [] {
      assert calls + more == calls;
    } else {
      var rest, call := more[..|more| - 1], more[|more| - 1];
      assert calls + more == calls + rest + [call];
      StillFailed(w, deployer, calls, rest);
      StaysFailed(w, deployer, calls + rest, call);
    }
  }

  lemma BadGrantStops(w: World, deployer: Address, useMCMS: bool, grants: seq<RoleGrant>, n: nat)
    requires n < |grants| && !Supported(grants[n])
    ensures
      var (w', r) := Run(w, deployer, useMCMS, grants[..n]);
      Run(w, deployer, useMCMS, grants).0 == w' && Run(w, deployer, useMCMS, grants).1.Failure?
      && (r.Failure? ==> Run(w, deployer, useMCMS, grants).1 == r)
  {
    assert grants[..n + 1][..n] == grants[..n] && grants[..n + 1][n] == grants[n];
    FailureStops(w, deployer, useMCMS, grants, n + 1);
  }

  /** A direct run, over any reports: for the grants before the first unsupported one, it
      sends exactly what is to be sent, in order, each call once, reports exactly these,
      and makes exactly these memberships. A deployer that is no admin sends nothing, and
      fails if anything is to be sent. Otherwise the run fails exactly when there is an
      unsupported grant. */
  lemma DirectCalls(w: World, deployer: Address, grants: seq<RoleGrant>)
    ensures
      var (w', r) := Run(w, deployer, false, grants);
      var todo := ToSend(w, Asked(grants[..Leading(grants)]));
      if todo != [] && deployer !in w.tables.admins then w' == w && r == Failure(NotAdmin)
      else
        && (if todo == [] then w' == w else SentOff(w, todo, w'))
        && (r.Success? <==> forall g :: g in grants ==> Supported(g))
        && (r.Success? ==> r.value == [])
  {
    var n := Leading(grants);
    AllAsked(w, deployer, grants[..n]);
    hide Run, ToSend, Asked, SentOff, Supported;
    if n < |grants| {
      BadGrantStops(w, deployer, false, grants, n);
    } else {
      assert grants[..n] == grants;
    }
  }

  lemma ToProposeJoin(tables: Tables, calls: seq<Call>, more: seq<Call>)
    ensures ToPropose(tables, calls + more) == ToPropose(tables, calls) + ToPropose(tables, more)
  {
    if more == [] {
      assert calls + more == calls;
    } else {
      var rest, call := more[..|more| - 1], more[|more| - 1];
      assert calls + more == calls + rest + [call];
      assert (calls + rest + [call])[..|calls + rest|] == calls + rest;
      ToProposeJoin(tables, calls, rest);
    }
  }

  lemma {:induction false} ProposedList(tables: Tables, role: Role, list: seq<Address>)
    requires role != Unsupported
    ensures ToPropose(tables, CallsFor(role, list)) ==
      CallsFor(role, Difference(list, AddressesForRole(tables, role).value))
  {
    var existing := AddressesForRole(tables, role).value;
    CallsForOneMore(role, [], 0);
    if list != [] {
      var rest, a := list[..|list| - 1], list[|list| - 1];
      assert list == rest + [a];
      ProposedList(tables, role, rest);
      CallsForOneMore(role, rest, a);
      var calls := CallsFor(role, rest);
      assert (calls + [GrantCall(role, a)])[..|calls|] == calls;
      CallsForOneMore(role, Difference(rest, existing), a);
    }
  }

  function Proposed(calls: seq<Call>): set<OpInput> {
    set call | call in calls :: OpInput(call, true)
  }

  lemma {:induction false} EachReported(w: World, deployer: Address, role: Role, list: seq<Address>)
    ensures GrantEach(w, deployer, true, role, list).0.reports == w.reports + Proposed(CallsFor(role, list))
  {
    CallsForOneMore(role, [], 0);
    if list != [] {
      var rest, a := list[..|list| - 1], list[|list| - 1];
      assert list == rest + [a];
      EachReported(w, deployer, role, rest);
      ProposedEach(w, deployer, role, rest);
      CallsForOneMore(role, rest, a);
      ProposedJoin(CallsFor(role, rest), [GrantCall(role, a)]);
      assert Proposed([GrantCall(role, a)]) == {OpInput(GrantCall(role, a), true)};
    }
  }

  lemma ProposedJoin(calls: seq<Call>, more: seq<Call>)
    ensures Proposed(calls + more) == Proposed(calls) + Proposed(more)
  {}

  lemma {:induction false} AllProposed(w: World, deployer: Address, grants: seq<RoleGrant>)
    requires forall g :: g in grants ==> Supported(g)
    ensures
      var calls := ToPropose(w.tables, Asked(grants));
      Run(w, deployer, true, grants) == (w.(reports := w.reports + Proposed(calls)), Success(calls))
  {
    hide GrantEach, Difference, ToPropose;
    if grants == [] {
      NoneToPropose(w);
    } else {
      var rest, g := grants[..|grants| - 1], grants[|grants| - 1];
      assert grants == rest + [g];
      AllProposed(w, deployer, rest);
      AskedOneMore(rest, g);
      ToProposeJoin(w.tables, Asked(rest), CallsFor(g.role, Parsed(g.addresses)));
      ProposedList(w.tables, g.role, Parsed(g.addresses));
      var w1 := Run(w, deployer, true, rest).0;
      var needed := Difference(Parsed(g.addresses), AddressesForRole(w.tables, g.role).value);
      ProposedEach(w1, deployer, g.role, needed);
      EachReported(w1, deployer, g.role, needed);
      ProposedJoin(ToPropose(w.tables, Asked(rest)), CallsFor(g.role, needed));
      var before, more := ToPropose(w.tables, Asked(rest)), CallsFor(g.role, needed);
      assert w.reports + Proposed(before) + Proposed(more) == w.reports + Proposed(before + more);
      assert Needed(w1.tables, g) == Success(needed);
      assert Run(w, deployer, true, grants).1 == Success(before + more);
    }
  }

  lemma NoneToPropose(w: World)
    ensures ToPropose(w.tables, Asked([])) == [] && w.(reports := w.reports + Proposed([])) == w
  {}

  /** A proposing run, over any reports: it changes no table and sends nothing; it fails
      exactly when there is an unsupported grant, and otherwise returns exactly the calls
      to propose, in order, whatever was reported. */
  lemma ProposedCalls(w: World, deployer: Address, grants: seq<RoleGrant>)
    ensures
      var (w', r) := Run(w, deployer, true, grants);
      var calls := ToPropose(w.tables, Asked(grants[..Leading(grants)]));
      && w' == w.(reports := w.reports + Proposed(calls))
      && (r.Success? <==> forall g :: g in grants ==> Supported(g))
      && (r.Success? ==> r.value == calls)
  {
    var n := Leading(grants);
    AllProposed(w, deployer, grants[..n]);
    hide Run, ToPropose, Asked, Supported;
    if n < |grants| {
      BadGrantStops(w, deployer, true, grants, n);
    } else {
      assert grants[..n] == grants;
      assert forall g :: g in grants ==> Supported(g);
      assert Run(w, deployer, true, grants) == Run(w, deployer, true, grants[..n]);
    }
  }

  /** The sequence: answered from its report it does nothing; otherwise it does what the
      run does, and is recorded exactly when that succeeds. */
  lemma SequenceRuns(s: GrantRuns, deployer: Address, timelock: Address, useMCMS: bool, grants: seq<RoleGrant>)
    ensures
      var (s', r) := RunSequence(s, deployer, timelock, useMCMS, grants);
      var (w, o) := Run(s.world, deployer, useMCMS, grants);
      if (useMCMS, grants) in s.outputs then s' == s && r == Success(s.outputs[(useMCMS, grants)])
      else
        && s'.world == w && (r.Success? <==> o.Success?)
        && (if r.Success? then r.value == Batch(timelock, o.value)
              && s'.outputs == s.outputs[(useMCMS, grants) := r.value]
            else s'.outputs == s.outputs)
  {
    hide Run;
  }
}
