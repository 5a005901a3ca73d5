/** The subjects by which requests reach the Go and TypeScript runtimes and results find their way back. */
module Subjects {
  import opened Text

  // The broker

  predicate TokensMatch(pattern: seq<string>, subject: seq<string>) {
    if pattern == [] then subject == []
    else if pattern == [">"] then subject != []
    else subject != [] && (pattern[0] == "*" || pattern[0] == subject[0]) && TokensMatch(pattern[1..], subject[1..])
  }

  /** NATS delivers a message to a subscription when the tokens of pattern and subject match one by one. */
  predicate Matches(pattern: string, subject: string) {
    TokensMatch(Split(pattern, '.'), Split(subject, '.'))
  }

  /** A token that stands for itself. */
  predicate IsToken(t: string) {
    t != "" && '.' !in t && '*' !in t && '>' !in t
  }

  // The ingestor

  datatype Request = Request(project: string, name: string, lang: string, id: string)

  predicate IsAddressable(r: Request) {
    IsToken(r.project) && IsToken(r.name) && IsToken(r.lang) && IsToken(r.id)
  }

  function ExecSubject(r: Request): string {
    r.project + "." + r.name + ".exec." + r.lang + "." + r.id
  }

  function ReplySubject(r: Request): string {
    r.project + "." + r.name + ".res." + r.lang + "." + r.id
  }

  const LETTERS := 62

  /** The letters and digits from which request ids are drawn, in the order of the source: a-z, A-Z, 0-9. */
  function Letter(k: nat): char
    requires k < LETTERS
  {
    if k < 26 then ('a' as int + k) as char
    else if k < 52 then ('A' as int + k - 26) as char
    else ('0' as int + k - 52) as char
  }

  /** The row of letters that the draws pick from, written out in its three parts. */
  lemma LettersInOrder(k: nat)
    ensures k < 26 ==> Letter(k) == "abcdefghijklmnopqrstuvwxyz"[k]
    ensures k < 26 ==> Letter(26 + k) == "ABCDEFGHIJKLMNOPQRSTUVWXYZ"[k]
    ensures k < 10 ==> Letter(52 + k) == "0123456789"[k]
  {
  }

  /** A request id from a series of draws; it stands for itself as a token. */
  method RandomId(draws: seq<nat>) returns (id: string)
    requires forall i :: 0 <= i < |draws| ==> draws[i] < LETTERS
    ensures |id| == |draws| && forall i :: 0 <= i < |draws| ==> id[i] == Letter(draws[i])
    ensures draws != [] ==> IsToken(id)
  {
    var b := new char[|draws|];
    for i := 0 to |draws|
      invariant forall j :: 0 <= j < i ==> b[j] == Letter(draws[j])
    {
      b[i] := Letter(draws[i]);
    }
    id := b[..];
  }

  // The runtimes

  datatype Runtime = Go(project: string, name: string) | TypeScript(project: string, name: string)

  function LangToken(rt: Runtime): string {
    if rt.Go? then "go" else "ts"
  }

  function Subscription(rt: Runtime): string {
    rt.project + "." + rt.name + ".exec." + LangToken(rt) + ".*"
  }

  /** The Go runtime takes the last token of the subject, the TypeScript runtime the fifth or an empty id. */
  function RequestId(rt: Runtime, subject: string): string {
    var parts := Split(subject, '.');
    match rt
    case Go(_, _) => parts[|parts| - 1]
    case TypeScript(_, _) => if |parts| > 4 then parts[4] else ""
  }

  /** Where the runtime publishes the results of a message that it got on `subject`. */
  function ResultSubject(rt: Runtime, subject: string): string {
    rt.project + "." + rt.name + ".res." + LangToken(rt) + "." + RequestId(rt, subject)
  }

  predicate Serves(rt: Runtime, r: Request) {
    rt.project == r.project && rt.name == r.name && LangToken(rt) == r.lang
  }

  // Addressing

  lemma SplitFive(a: string, b: string, c: string, d: string, e: string)
    requires '.' !in a && '.' !in b && '.' !in c && '.' !in d && '.' !in e
    ensures Split(a + "." + b + "." + c + "." + d + "." + e, '.') == [a, b, c, d, e]
  {
    hide Split;
    SplitWhole(a, '.');
    SplitAppends(a, b, '.');
    SplitAppends(a + "." + b, c, '.');
    SplitAppends(a + "." + b + "." + c, d, '.');
    SplitAppends(a + "." + b + "." + c + "." + d, e, '.');
  }

  lemma MatchFive(p: seq<string>, s: seq<string>)
    requires |p| == 5 && |s| == 5 && forall i :: 0 <= i < 5 ==> p[i] != ">"
    ensures TokensMatch(p, s) <==> forall i :: 0 <= i < 5 ==> p[i] == "*" || p[i] == s[i]
  {
    MatchStep(p, s);
    MatchStep(p[1..], s[1..]);
    MatchStep(p[2..], s[2..]);
    MatchStep(p[3..], s[3..]);
    MatchStep(p[4..], s[4..]);
    assert TokensMatch(p[5..], s[5..]);
  }

  lemma MatchStep(p: seq<string>, s: seq<string>)
    requires p != [] && s != [] && p[0] != ">"
    ensures TokensMatch(p, s) <==> (p[0] == "*" || p[0] == s[0]) && TokensMatch(p[1..], s[1..])
  {
  }

  /** A pattern that ends in ">" takes any rest of at least one token. */
  lemma {:induction false} MatchRest(p: seq<string>, s: seq<string>)
    requires forall i :: 0 <= i < |p| ==> IsToken(p[i])
    ensures TokensMatch(p + [">"], s) <==> |p| < |s| && s[..|p|] == p
  {
    if p != [] && s != [] {
      MatchRest(p[1..], s[1..]);
      assert (p + [">"])[1..] == p[1..] + [">"];
      assert |p| <= |s| ==> s[..|p|] == [s[0]] + s[1..][..|p| - 1];
      assert p == [p[0]] + p[1..];
    }
  }

  lemma ExecTokens(r: Request)
    requires IsAddressable(r)
    ensures Split(ExecSubject(r), '.') == [r.project, r.name, "exec", r.lang, r.id]
  {
    assert ExecSubject(r) == r.project + "." + r.name + "." + "exec" + "." + r.lang + "." + r.id;
    SplitFive(r.project, r.name, "exec", r.lang, r.id);
  }

  lemma ReplyTokens(r: Request)
    requires IsAddressable(r)
    ensures Split(ReplySubject(r), '.') == [r.project, r.name, "res", r.lang, r.id]
  {
    assert ReplySubject(r) == r.project + "." + r.name + "." + "res" + "." + r.lang + "." + r.id;
    SplitFive(r.project, r.name, "res", r.lang, r.id);
  }

  /** What a runtime listens to, token by token; the Go runtime answers to "go", the TypeScript runtime to "ts". */
  lemma SubscriptionTokens(rt: Runtime)
    requires IsToken(rt.project) && IsToken(rt.name)
    ensures Split(Subscription(rt), '.') == [rt.project, rt.name, "exec", if rt.Go? then "go" else "ts", "*"]
  {
    assert Subscription(rt) == rt.project + "." + rt.name + "." + "exec" + "." + LangToken(rt) + "." + "*";
    SplitFive(rt.project, rt.name, "exec", LangToken(rt), "*");
  }

  /** A request reaches the runtimes of its own function and language, and no others. */
  lemma RequestsReachTheirRuntime(rt: Runtime, r: Request)
    requires IsToken(rt.project) && IsToken(rt.name) && IsAddressable(r)
    ensures Matches(Subscription(rt), ExecSubject(r)) <==> Serves(rt, r)
  {
    ExecTokens(r);
    SubscriptionTokens(rt);
    var p, s := [rt.project, rt.name, "exec", LangToken(rt), "*"], [r.project, r.name, "exec", r.lang, r.id];
    MatchFive(p, s);
    hide Split, ExecSubject, Subscription, TokensMatch;
    assert p[0] == s[0] && p[1] == s[1] && p[3] == s[3] <==> Serves(rt, r);
    assert p[0] != "*" && p[1] != "*" && p[3] != "*";
  }

  /** On any subject, the Go runtime finds the id in the last token and the TypeScript runtime in the fifth, if any. */
  lemma {:induction false} IdOfAnySubject(rt: Runtime, tokens: seq<string>)
    requires tokens != [] && forall i :: 0 <= i < |tokens| ==> '.' !in tokens[i]
    ensures rt.Go? ==> RequestId(rt, Join(tokens, '.')) == tokens[|tokens| - 1]
    ensures rt.TypeScript? ==> RequestId(rt, Join(tokens, '.')) == if |tokens| < 5 then "" else tokens[4]
  {
    hide Split, Join;
    SplitJoin(tokens, '.');
  }

  /** The runtime recovers the id of the request, and answers on the subject of that request. */
  lemma ResultsAnswerTheirRequest(rt: Runtime, r: Request)
    requires IsAddressable(r) && Serves(rt, r)
    ensures RequestId(rt, ExecSubject(r)) == r.id
    ensures ResultSubject(rt, ExecSubject(r)) == ReplySubject(r)
    ensures Split(ResultSubject(rt, ExecSubject(r)), '.') ==
      [r.project, r.name, "res", if rt.Go? then "go" else "ts", r.id]
  {
    ExecTokens(r);
    ReplyTokens(r);
    hide Split;
  }

  /** What is published for one request is delivered to the subscription of that request and of no other. */
  lemma RepliesAreApart(r: Request, other: Request)
    requires IsAddressable(r) && IsAddressable(other)
    ensures Matches(ReplySubject(other), ReplySubject(r)) <==> other == r
  {
    ReplyTokens(r);
    ReplyTokens(other);
    var p, s := [other.project, other.name, "res", other.lang, other.id], [r.project, r.name, "res", r.lang, r.id];
    MatchFive(p, s);
    hide Split, ReplySubject, TokensMatch;
    assert p[0] == s[0] && p[1] == s[1] && p[3] == s[3] && p[4] == s[4] <==> other == r;
    assert p[0] != "*" && p[1] != "*" && p[3] != "*" && p[4] != "*";
  }

  /**
   * From end to end: a runtime that gets the message of a request publishes results that the subscriber of a request
   * `other` receives if and only if `other` is that request.
   */
  lemma ResultsFindTheirWay(rt: Runtime, r: Request, other: Request)
    requires IsToken(rt.project) && IsToken(rt.name) && IsAddressable(r) && IsAddressable(other)
    requires Matches(Subscription(rt), ExecSubject(r))
    ensures Matches(ReplySubject(other), ResultSubject(rt, ExecSubject(r))) <==> other == r
  {
    RequestsReachTheirRuntime(rt, r);
    ResultsAnswerTheirRequest(rt, r);
    RepliesAreApart(r, other);
  }

  /** Requests and results never meet: no reply subscription matches a request, and no runtime gets a result. */
  lemma RequestsAndResultsAreApart(rt: Runtime, r: Request, other: Request)
    requires IsToken(rt.project) && IsToken(rt.name) && IsAddressable(r) && IsAddressable(other)
    ensures !Matches(ReplySubject(other), ExecSubject(r)) && !Matches(Subscription(rt), ReplySubject(r))
  {
    ExecTokens(r);
    ReplyTokens(r);
    ReplyTokens(other);
    SubscriptionTokens(rt);
    var asked, answered := [r.project, r.name, "exec", r.lang, r.id], [r.project, r.name, "res", r.lang, r.id];
    var inbox, feed :=
      [other.project, other.name, "res", other.lang, other.id], [rt.project, rt.name, "exec", LangToken(rt), "*"];
    MatchFive(inbox, asked);
    MatchFive(feed, answered);
    hide Split, ReplySubject, ExecSubject, Subscription, TokensMatch;
    assert inbox[2] != asked[2] && inbox[2] != "*" && feed[2] != answered[2] && feed[2] != "*";
  }
}
