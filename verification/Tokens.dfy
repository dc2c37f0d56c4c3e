/** Token positions in subjects: what validation accepts, the handlers can look up. */
module Tokens {
  import opened Prelude

  // ----- Splitting subjects -----

  /** The parts between the dots; never empty. */
  function Split(s: string): (r: seq<string>)
    ensures |r| > 0
  {
    if s == "" then [""]
    else
      var rest := Split(s[1..]);
      if s[0] == '.' then [""] + rest else [[s[0]] + rest[0]] + rest[1..]
  }

  function Join(tokens: seq<string>): string
    requires |tokens| > 0
  {
    if |tokens| == 1 then tokens[0] else tokens[0] + "." + Join(tokens[1..])
  }

  ghost predicate NoDots(tokens: seq<string>) {
    forall i :: 0 <= i < |tokens| ==> '.' !in tokens[i]
  }

  lemma {:induction false} JoinSplit(s: string)
    ensures Join(Split(s)) == s && NoDots(Split(s))
  {
    if s != "" {
      var rest := Split(s[1..]);
      JoinSplit(s[1..]);
      if s[0] == '.' {
        assert ([""] + rest)[1..] == rest;
      } else {
        assert ([[s[0]] + rest[0]] + rest[1..])[1..] == rest[1..];
      }
    }
  }

  lemma {:induction false} SplitToken(token: string)
    requires '.' !in token
    ensures Split(token) == [token]
  {
    if token != "" {
      SplitToken(token[1..]);
      assert token == [token[0]] + token[1..];
    }
  }

  lemma {:induction false} SplitAfter(token: string, rest: string)
    requires '.' !in token
    ensures Split(token + "." + rest) == [token] + Split(rest)
  {
    var s := token + "." + rest;
    if token == "" {
      assert s[1..] == rest;
    } else {
      SplitAfter(token[1..], rest);
      assert s[1..] == token[1..] + "." + rest;
      assert token == [token[0]] + token[1..];
      assert ([token[1..]] + Split(rest))[1..] == Split(rest);
    }
  }

  /** Splitting undoes joining tokens without dots. */
  lemma {:induction false} SplitJoin(tokens: seq<string>)
    requires |tokens| > 0 && NoDots(tokens)
    ensures Split(Join(tokens)) == tokens
    decreases |tokens|
  {
    if |tokens| == 1 {
      SplitToken(tokens[0]);
    } else {
      SplitAfter(tokens[0], Join(tokens[1..]));
      SplitJoin(tokens[1..]);
    }
  }

  // ----- Wildcards -----

  /** How NATS matches a subject: `*` stands for one token, a final `>` for one or more. */
  predicate Matches(pattern: seq<string>, subject: seq<string>) {
    if pattern == [] then subject == []
    else if pattern == [">"] then subject != []
    else subject != [] && (pattern[0] == "*" || pattern[0] == subject[0]) && Matches(pattern[1..], subject[1..])
  }

  /** Token by token; a final `>` takes whatever is left, but not nothing. */
  lemma {:induction false} MatchesIff(pattern: seq<string>, subject: seq<string>)
    ensures Matches(pattern, subject) <==>
            && (forall i :: 0 <= i < |pattern| - 1 ==>
                  i < |subject| && (pattern[i] == "*" || pattern[i] == subject[i]))
            && if pattern == [] then subject == []
               else
                 var last := |pattern| - 1;
                 if pattern[last] == ">" then |subject| >= |pattern|
                 else |subject| == |pattern| && (pattern[last] == "*" || pattern[last] == subject[last])
  {
    if |pattern| > 1 && subject != [] && (pattern[0] == "*" || pattern[0] == subject[0]) {
      MatchesIff(pattern[1..], subject[1..]);
    }
  }

  /** The tokens that the wildcards of the pattern stand for, by place in the pattern. */
  function Bindings(pattern: seq<string>, subject: seq<string>): (r: seq<Option<string>>)
    requires Matches(pattern, subject)
    ensures |r| == |pattern|
  {
    if pattern == [] then []
    else if pattern == [">"] then [None]
    else
      var rest := Bindings(pattern[1..], subject[1..]);
      [if pattern[0] == "*" then Some(subject[0]) else None] + rest
  }

  lemma {:induction false} StarIsToken(pattern: seq<string>, subject: seq<string>, i: nat)
    requires Matches(pattern, subject) && i < |pattern|
    ensures pattern[i] == "*" ==> i < |subject| && Bindings(pattern, subject)[i] == Some(subject[i])
    ensures pattern[i] != "*" ==> Bindings(pattern, subject)[i] == None
  {
    if i > 0 {
      StarIsToken(pattern[1..], subject[1..], i - 1);
    }
  }

  /** The subject of a message matches the subject that was subscribed to. */
  predicate Received(subscribed: string, subject: string) {
    Matches(Split(subscribed), Split(subject))
  }

  /** The token of the message that the wildcard at a position stands for. */
  function Bound(subscribed: string, subject: string, position: int): Option<string>
    requires Received(subscribed, subject) && 0 < position <= |Split(subscribed)|
  {
    Bindings(Split(subscribed), Split(subject))[position - 1]
  }

  function GetToken(subject: string, position: int): Option<string> {
    var parts := Split(subject);
    if position <= 0 || position > |parts| then None else Some(parts[position - 1])
  }

  /** Positions count the tokens of the subject from one; no other position has a token. */
  lemma TokenOfJoined(tokens: seq<string>, position: int)
    requires |tokens| > 0 && NoDots(tokens)
    ensures GetToken(Join(tokens), position) ==
            if 1 <= position <= |tokens| then Some(tokens[position - 1]) else None
  {
    SplitJoin(tokens);
  }

  /** The position of a wildcard in the subscribed subject. */
  predicate PointsToStar(subscribed: string, position: int) {
    0 < position <= |Split(subscribed)| && Split(subscribed)[position - 1] == "*"
  }

  lemma StarResolves(subscribed: string, subject: string, position: int)
    requires PointsToStar(subscribed, position) && Received(subscribed, subject)
    ensures GetToken(subject, position).Some?
    ensures GetToken(subject, position) == Bound(subscribed, subject, position)
  {
    StarIsToken(Split(subscribed), Split(subject), position - 1);
  }

  // ----- Service observations -----

  datatype ServiceAccount = ServiceAccount(accountPosition: int, servicePosition: int)

  datatype ServiceConfig = ServiceConfig(
    id: string, serviceName: string, topic: string, external: Option<ServiceAccount>)

  datatype Problem =
    | NoId | NoName | NoTopic
    | AccountMissing | AccountTooLarge | AccountNoStar
    | ServiceNegative | ServiceTooLarge | ServiceNoStar

  /** Validation ends with a list of problems, or by indexing before the first token. */
  datatype Verdict = Verdict(problems: seq<Problem>) | Panics

  function If(c: bool, p: Problem): seq<Problem> {
    if c then [p] else []
  }

  function AccountProblems(tokens: seq<string>, position: int): seq<Problem> {
    if position <= 0 then [AccountMissing]
    else if position > |tokens| then [AccountTooLarge]
    else if tokens[position - 1] != "*" then [AccountNoStar]
    else []
  }

  function ServiceProblems(tokens: seq<string>, position: int): Verdict {
    if position < 0 then Verdict([ServiceNegative])
    else if position > |tokens| then Verdict([ServiceTooLarge])
    else if position == 0 then Panics
    else Verdict(If(tokens[position - 1] != "*", ServiceNoStar))
  }

  function ValidateService(c: ServiceConfig): Verdict {
    var named := If(c.id == "", NoId) + If(c.serviceName == "", NoName) + If(c.topic == "", NoTopic);
    if c.external.None? then Verdict(named)
    else
      var tokens := Split(c.topic);
      var service := ServiceProblems(tokens, c.external.value.servicePosition);
      if service.Panics? then Panics
      else Verdict(named + AccountProblems(tokens, c.external.value.accountPosition) + service.problems)
  }

  /** The configuration is accepted exactly if it is named and its positions, if it has
      any, both point to wildcards of the topic. */
  lemma ServiceAcceptedIff(c: ServiceConfig)
    ensures ValidateService(c) == Verdict([]) <==>
            && c.id != "" && c.serviceName != "" && c.topic != ""
            && (c.external.Some? ==>
                  && PointsToStar(c.topic, c.external.value.accountPosition)
                  && PointsToStar(c.topic, c.external.value.servicePosition))
  {
    if c.external.Some? {
      var tokens := Split(c.topic);
      assert AccountProblems(tokens, c.external.value.accountPosition) == [] <==>
             PointsToStar(c.topic, c.external.value.accountPosition);
      assert ServiceProblems(tokens, c.external.value.servicePosition) == Verdict([]) <==>
             PointsToStar(c.topic, c.external.value.servicePosition);
    }
  }

  lemma AccountProblemsIff(tokens: seq<string>, position: int)
    ensures var ps := AccountProblems(tokens, position);
            && (AccountMissing in ps <==> position <= 0)
            && (AccountTooLarge in ps <==> position > 0 && position > |tokens|)
            && (AccountNoStar in ps <==> 1 <= position <= |tokens| && tokens[position - 1] != "*")
            && forall p :: p in ps ==> p in {AccountMissing, AccountTooLarge, AccountNoStar}
  {
  }

  lemma ServiceProblemsIff(tokens: seq<string>, position: int)
    requires position != 0
    ensures var v := ServiceProblems(tokens, position);
            && v.Verdict?
            && (ServiceNegative in v.problems <==> position < 0)
            && (ServiceTooLarge in v.problems <==> position > |tokens|)
            && (ServiceNoStar in v.problems <==> 1 <= position <= |tokens| && tokens[position - 1] != "*")
            && forall p :: p in v.problems ==> p in {ServiceNegative, ServiceTooLarge, ServiceNoStar}
  {
  }

  lemma InConcat(p: Problem, xs: seq<Problem>, ys: seq<Problem>, zs: seq<Problem>)
    ensures p in xs + ys + zs <==> p in xs || p in ys || p in zs
  {
  }

  /** Which problems are found, and when. */
  lemma ProblemsFoundIff(c: ServiceConfig, ps: seq<Problem>, p: Problem)
    requires ValidateService(c) == Verdict(ps)
    ensures p in ps <==>
            match p
            case NoId => c.id == ""
            case NoName => c.serviceName == ""
            case NoTopic => c.topic == ""
            case AccountMissing => c.external.Some? && c.external.value.accountPosition <= 0
            case AccountTooLarge => c.external.Some? && c.external.value.accountPosition > |Split(c.topic)|
            case AccountNoStar =>
              && c.external.Some? && 1 <= c.external.value.accountPosition <= |Split(c.topic)|
              && Split(c.topic)[c.external.value.accountPosition - 1] != "*"
            case ServiceNegative => c.external.Some? && c.external.value.servicePosition < 0
            case ServiceTooLarge => c.external.Some? && c.external.value.servicePosition > |Split(c.topic)|
            case ServiceNoStar =>
              && c.external.Some? && 1 <= c.external.value.servicePosition <= |Split(c.topic)|
              && Split(c.topic)[c.external.value.servicePosition - 1] != "*"
  {
    var id, name, topic := If(c.id == "", NoId), If(c.serviceName == "", NoName), If(c.topic == "", NoTopic);
    InConcat(p, id, name, topic);
    if c.external.Some? {
      var e, tokens := c.external.value, Split(c.topic);
      AccountProblemsIff(tokens, e.accountPosition);
      ServiceProblemsIff(tokens, e.servicePosition);
      InConcat(p, id + name + topic, AccountProblems(tokens, e.accountPosition),
               ServiceProblems(tokens, e.servicePosition).problems);
    }
  }

  /** The service name position is documented as optional, but leaving it out of an external
      account configuration makes validation panic instead of accepting it. */
  lemma ServicePanicsIff(c: ServiceConfig)
    ensures ValidateService(c).Panics? <==> c.external.Some? && c.external.value.servicePosition == 0
  {
    if c.external.Some? {
      assert |Split(c.topic)| > 0;
    }
  }

  datatype Names = Names(service: string, account: string)

  /** Which service and account an observation is counted for. */
  function ServiceNames(c: ServiceConfig, subject: string): Option<Names> {
    if c.external.None? then Some(Names(c.serviceName, ""))
    else
      var e := c.external.value;
      var account := if e.accountPosition != 0 then GetToken(subject, e.accountPosition) else Some("");
      if account.None? then None
      else if e.servicePosition != 0 then
        var service := GetToken(subject, e.servicePosition);
        if service.None? then None else Some(Names(service.value, account.value))
      else Some(Names(account.value, account.value))
  }

  /** Under an accepted configuration every observation received is counted, for the
      service and the account that the wildcards stand for. */
  lemma ServiceNamesResolve(c: ServiceConfig, subject: string)
    requires ValidateService(c) == Verdict([]) && Received(c.topic, subject)
    ensures c.external.None? ==> ServiceNames(c, subject) == Some(Names(c.serviceName, ""))
    ensures c.external.Some? ==>
              && PointsToStar(c.topic, c.external.value.accountPosition)
              && PointsToStar(c.topic, c.external.value.servicePosition)
              && var account := Bound(c.topic, subject, c.external.value.accountPosition);
                 var service := Bound(c.topic, subject, c.external.value.servicePosition);
                 && account.Some? && service.Some?
                 && ServiceNames(c, subject) == Some(Names(service.value, account.value))
  {
    ServiceAcceptedIff(c);
    if c.external.Some? {
      StarResolves(c.topic, subject, c.external.value.accountPosition);
      StarResolves(c.topic, subject, c.external.value.servicePosition);
    }
  }

  /** By position: without one the account has no name, and the service goes by the account's;
      an observation is not counted if a position is given and has no token. */
  lemma ServiceNamesAre(c: ServiceConfig, tokens: seq<string>, p: int, q: int)
    requires c.external == Some(ServiceAccount(p, q)) && |tokens| > 0 && NoDots(tokens)
    ensures p == 0 && q == 0 ==> ServiceNames(c, Join(tokens)) == Some(Names("", ""))
    ensures p == 0 && 1 <= q <= |tokens| ==> ServiceNames(c, Join(tokens)) == Some(Names(tokens[q - 1], ""))
    ensures 1 <= p <= |tokens| && q == 0 ==>
              ServiceNames(c, Join(tokens)) == Some(Names(tokens[p - 1], tokens[p - 1]))
    ensures 1 <= p <= |tokens| && 1 <= q <= |tokens| ==>
              ServiceNames(c, Join(tokens)) == Some(Names(tokens[q - 1], tokens[p - 1]))
    ensures p < 0 || p > |tokens| || q < 0 || q > |tokens| ==> ServiceNames(c, Join(tokens)) == None
  {
    TokenOfJoined(tokens, p);
    TokenOfJoined(tokens, q);
  }

  // ----- JetStream advisories -----

  datatype AdvisoryAccount = AdvisoryAccount(
    metricsSubject: string, metricsPosition: int, advisorySubject: string, advisoryPosition: int)

  datatype AdvisoryConfig = AdvisoryConfig(id: string, accountName: string, external: Option<AdvisoryAccount>)

  function ValidateAdvisory(c: AdvisoryConfig): seq<Problem> {
    var named := If(c.id == "", NoId) + If(c.accountName == "", NoName);
    if c.external.None? then named
    else
      var e := c.external.value;
      named
      + If(e.metricsSubject == "", NoTopic) + AccountProblems(Split(e.metricsSubject), e.metricsPosition)
      + If(e.advisorySubject == "", NoTopic) + AccountProblems(Split(e.advisorySubject), e.advisoryPosition)
  }

  lemma AdvisoryAcceptedIff(c: AdvisoryConfig)
    ensures ValidateAdvisory(c) == [] <==>
            && c.id != "" && c.accountName != ""
            && (c.external.Some? ==>
                  var e := c.external.value;
                  && PointsToStar(e.metricsSubject, e.metricsPosition)
                  && PointsToStar(e.advisorySubject, e.advisoryPosition))
  {
    SplitToken("");
    if c.external.Some? {
      var e := c.external.value;
      assert AccountProblems(Split(e.metricsSubject), e.metricsPosition) == [] <==>
             PointsToStar(e.metricsSubject, e.metricsPosition);
      assert AccountProblems(Split(e.advisorySubject), e.advisoryPosition) == [] <==>
             PointsToStar(e.advisorySubject, e.advisoryPosition);
    }
  }

  /** Which problems are found, and when. */
  lemma AdvisoryProblemsFoundIff(c: AdvisoryConfig, p: Problem)
    ensures p in ValidateAdvisory(c) <==>
            match p
            case NoId => c.id == ""
            case NoName => c.accountName == ""
            case NoTopic =>
              c.external.Some? && (c.external.value.metricsSubject == "" || c.external.value.advisorySubject == "")
            case AccountMissing =>
              c.external.Some? && (c.external.value.metricsPosition <= 0 || c.external.value.advisoryPosition <= 0)
            case AccountTooLarge =>
              && c.external.Some?
              && (|| c.external.value.metricsPosition > |Split(c.external.value.metricsSubject)|
                  || c.external.value.advisoryPosition > |Split(c.external.value.advisorySubject)|)
            case AccountNoStar =>
              && c.external.Some?
              && (|| NotStar(c.external.value.metricsSubject, c.external.value.metricsPosition)
                  || NotStar(c.external.value.advisorySubject, c.external.value.advisoryPosition))
            case _ => false
  {
    InConcat(p, If(c.id == "", NoId), If(c.accountName == "", NoName), []);
    if c.external.Some? {
      var e := c.external.value;
      var named := If(c.id == "", NoId) + If(c.accountName == "", NoName);
      var metrics, advisories := Split(e.metricsSubject), Split(e.advisorySubject);
      AccountProblemsIff(metrics, e.metricsPosition);
      AccountProblemsIff(advisories, e.advisoryPosition);
      InConcat(p, named, If(e.metricsSubject == "", NoTopic), AccountProblems(metrics, e.metricsPosition));
      InConcat(p, named + If(e.metricsSubject == "", NoTopic) + AccountProblems(metrics, e.metricsPosition),
               If(e.advisorySubject == "", NoTopic), AccountProblems(advisories, e.advisoryPosition));
    }
  }

  /** The position is that of a token that is no wildcard. */
  predicate NotStar(subject: string, position: int) {
    1 <= position <= |Split(subject)| && Split(subject)[position - 1] != "*"
  }

  /** Which account an advisory received on a subscription is counted for. */
  function AdvisoryAccountName(c: AdvisoryConfig, subscribed: string, subject: string): Option<string> {
    if c.external.None? then Some(c.accountName)
    else
      var e := c.external.value;
      var position :=
        if subscribed == e.metricsSubject then e.metricsPosition
        else if subscribed == e.advisorySubject then e.advisoryPosition
        else 0;
      if position == 0 then None else GetToken(subject, position)
  }

  /** Under an accepted configuration every message of the two subscriptions is counted, for
      the account that the wildcard of its subscription stands for; if both subjects are the
      same, the metrics position serves both. Without an external account it is the account
      name that counts, and a message of no configured subscription does not. */
  lemma AdvisoryAccountResolves(c: AdvisoryConfig, subscribed: string, subject: string)
    requires ValidateAdvisory(c) == [] && Received(subscribed, subject)
    ensures c.external.None? ==> AdvisoryAccountName(c, subscribed, subject) == Some(c.accountName)
    ensures c.external.Some? ==>
              var e := c.external.value;
              if subscribed == e.metricsSubject then
                && PointsToStar(subscribed, e.metricsPosition)
                && Bound(subscribed, subject, e.metricsPosition).Some?
                && AdvisoryAccountName(c, subscribed, subject) == Bound(subscribed, subject, e.metricsPosition)
              else if subscribed == e.advisorySubject then
                && PointsToStar(subscribed, e.advisoryPosition)
                && Bound(subscribed, subject, e.advisoryPosition).Some?
                && AdvisoryAccountName(c, subscribed, subject) == Bound(subscribed, subject, e.advisoryPosition)
              else AdvisoryAccountName(c, subscribed, subject).None?
  {
    AdvisoryAcceptedIff(c);
    if c.external.Some? {
      var e := c.external.value;
      if subscribed == e.metricsSubject {
        StarResolves(subscribed, subject, e.metricsPosition);
      } else if subscribed == e.advisorySubject {
        StarResolves(subscribed, subject, e.advisoryPosition);
      }
    }
  }

  /** A subject that matches the pattern: the wildcard in place `special` stands for "b", the
      others stand for "a". */
  function Sample(pattern: seq<string>, special: int): (r: seq<string>)
    ensures |r| == |pattern|
  {
    if pattern == [] then []
    else if pattern == [">"] then ["a"]
    else
      [if pattern[0] != "*" then pattern[0] else if special == 0 then "b" else "a"] + Sample(pattern[1..], special - 1)
  }

  lemma {:induction false} SampleMatches(pattern: seq<string>, special: int)
    requires NoDots(pattern)
    ensures Matches(pattern, Sample(pattern, special)) && NoDots(Sample(pattern, special))
    ensures forall i :: 0 <= i < |pattern| && pattern[i] == "*" ==>
              Sample(pattern, special)[i] == if i == special then "b" else "a"
  {
    if pattern != [] {
      SampleMatches(pattern[1..], special - 1);
    }
  }

  /** Two wildcards of a subject can stand for different tokens. */
  lemma WildcardsDiffer(subscribed: string, p: int, q: int) returns (subject: string)
    requires PointsToStar(subscribed, p) && PointsToStar(subscribed, q) && p != q
    ensures Received(subscribed, subject) && GetToken(subject, p) != Bound(subscribed, subject, q)
  {
    var pattern := Split(subscribed);
    JoinSplit(subscribed);
    SampleMatches(pattern, q - 1);
    subject := Join(Sample(pattern, q - 1));
    SplitJoin(Sample(pattern, q - 1));
    StarResolves(subscribed, subject, q);
  }

  /** All advisories resolve at the advisory position if and only if the two subjects differ
      or the two positions agree. */
  lemma AdvisoryPositionHoldsIff(c: AdvisoryConfig)
    requires ValidateAdvisory(c) == [] && c.external.Some?
    ensures var e := c.external.value;
            && PointsToStar(e.advisorySubject, e.advisoryPosition)
            && ((forall subject :: Received(e.advisorySubject, subject) ==>
                   AdvisoryAccountName(c, e.advisorySubject, subject) ==
                   Bound(e.advisorySubject, subject, e.advisoryPosition))
                <==> e.metricsSubject != e.advisorySubject || e.metricsPosition == e.advisoryPosition)
  {
    AdvisoryAcceptedIff(c);
    var e := c.external.value;
    if e.metricsSubject != e.advisorySubject || e.metricsPosition == e.advisoryPosition {
      forall subject | Received(e.advisorySubject, subject) {
        AdvisoryAccountResolves(c, e.advisorySubject, subject);
      }
    } else {
      var subject := WildcardsDiffer(e.advisorySubject, e.metricsPosition, e.advisoryPosition);
    }
  }

  /** An accepted configuration that counts an advisory for the wrong account. */
  const ONE_SUBJECT: AdvisoryConfig := AdvisoryConfig("id", "name", Some(AdvisoryAccount("*.*", 1, "*.*", 2)))

  lemma OneSubjectMisleads()
    ensures ValidateAdvisory(ONE_SUBJECT) == [] && Received("*.*", "a.b")
    ensures AdvisoryAccountName(ONE_SUBJECT, "*.*", "a.b") == Some("a")
    ensures PointsToStar("*.*", 2) && Bound("*.*", "a.b", 2) == Some("b")
  {
    SplitJoin(["*", "*"]);
    SplitJoin(["a", "b"]);
    assert Join(["*", "*"]) == "*.*" && Join(["a", "b"]) == "a.b";
    StarResolves("*.*", "a.b", 2);
  }
}
