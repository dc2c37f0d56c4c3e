/** Cutting the variable parts off the subjects of JetStream API calls. */
module SubjectLimit {
  import opened Prelude

  // ----- The regular expressions that are used -----

  /** One place of a pattern: a given character, or any but a newline. */
  datatype Atom = Lit(c: char) | Any

  /** A pattern followed by one of several words, tried in order. */
  datatype Regex = Regex(pattern: seq<Atom>, words: seq<string>)

  /** In a pattern a dot stands for any character; everything else is itself. */
  function Atoms(pattern: string): (r: seq<Atom>)
    ensures |r| == |pattern|
  {
    seq(|pattern|, i requires 0 <= i < |pattern| => if pattern[i] == '.' then Any else Lit(pattern[i]))
  }

  const MSG_CALL: string := "$JS.API.STREAM.MSG."
  const STREAM_CALL: string := "$JS.API.STREAM."
  const CONSUMER_CALL: string := "$JS.API.CONSUMER."
  const TEMPLATE_CALL: string := "$JS.API.STREAM.TEMPLATE."

  const MSG_VERBS: seq<string> := ["GET", "DELETE"]
  const STREAM_VERBS: seq<string> := ["CREATE", "UPDATE", "DELETE", "INFO", "SNAPSHOT", "RESTORE"]
  const CONSUMER_VERBS: seq<string> := ["CREATE", "UPDATE", "DELETE", "INFO", "SNAPSHOT", "RESTORE", "NAMES"]
  const TEMPLATE_VERBS: seq<string> := ["CREATE", "DELETE", "INFO"]

  const STREAM_MSG: Regex := Regex(Atoms(MSG_CALL), MSG_VERBS)
  const STREAM_CRUD: Regex := Regex(Atoms(STREAM_CALL), STREAM_VERBS)
  const CONSUMER_CRUD: Regex := Regex(Atoms(CONSUMER_CALL), CONSUMER_VERBS)
  const TEMPLATE_CRUD: Regex := Regex(Atoms(TEMPLATE_CALL), TEMPLATE_VERBS)

  predicate Fits(a: Atom, c: char) {
    if a.Any? then c != '\n' else a.c == c
  }

  predicate FitsAt(pattern: seq<Atom>, s: string, i: nat) {
    i + |pattern| <= |s| && forall k :: 0 <= k < |pattern| ==> Fits(pattern[k], s[i + k])
  }

  predicate WordAt(word: string, s: string, i: nat) {
    i + |word| <= |s| && s[i..i + |word|] == word
  }

  /** The first of the words that stands at the place. */
  function FirstWord(words: seq<string>, s: string, i: nat): (r: Option<string>)
    ensures r.Some? ==> r.value in words && WordAt(r.value, s, i)
    ensures r.None? ==> forall k :: 0 <= k < |words| ==> !WordAt(words[k], s, i)
  {
    if words == [] then None
    else if WordAt(words[0], s, i) then Some(words[0])
    else FirstWord(words[1..], s, i)
  }

  /** The length of the match that begins at the place, if there is one. */
  function MatchAt(re: Regex, s: string, i: nat): (r: Option<nat>)
    ensures r.Some? ==> i + r.value <= |s|
  {
    if !FitsAt(re.pattern, s, i) then None
    else
      var word := FirstWord(re.words, s, i + |re.pattern|);
      if word.None? then None else Some(|re.pattern| + |word.value|)
  }

  /** Where the leftmost match at or after a place begins. */
  function FindFrom(re: Regex, s: string, from: nat): (r: Option<nat>)
    requires from <= |s|
    ensures r.None? ==> forall i :: from <= i <= |s| ==> MatchAt(re, s, i).None?
    ensures r.Some? ==> from <= r.value <= |s| && MatchAt(re, s, r.value).Some?
    ensures r.Some? ==> forall i :: from <= i < r.value ==> MatchAt(re, s, i).None?
    decreases |s| - from
  {
    if MatchAt(re, s, from).Some? then Some(from)
    else if from == |s| then None
    else FindFrom(re, s, from + 1)
  }

  /** The text of the leftmost match. */
  function Find(re: Regex, s: string): Option<string> {
    var i := FindFrom(re, s, 0);
    if i.None? then None else Some(s[i.value..i.value + MatchAt(re, s, i.value).value])
  }

  const DURABLE_CREATE: string := "$JS.API.CONSUMER.DURABLE.CREATE"
  const MSG_NEXT: string := "$JS.API.CONSUMER.MSG.NEXT"

  /** The switch: four expressions and two prefixes, in order of priority. */
  function Limit(a: Regex, b: Regex, c: Regex, d: Regex, p: string, q: string, s: string): string {
    if Find(a, s).Some? then Find(a, s).value
    else if Find(b, s).Some? then Find(b, s).value
    else if Find(c, s).Some? then Find(c, s).value
    else if Find(d, s).Some? then Find(d, s).value
    else if p <= s then p
    else if q <= s then q
    else s
  }

  function LimitJSSubject(s: string): string {
    Limit(STREAM_MSG, STREAM_CRUD, CONSUMER_CRUD, TEMPLATE_CRUD, DURABLE_CREATE, MSG_NEXT, s)
  }

  // ----- Matches in parts of a string -----

  ghost predicate Within(part: string, s: string) {
    exists a :: WordAt(part, s, a)
  }

  lemma FitsInPart(pattern: seq<Atom>, s: string, a: nat, b: nat, i: nat)
    requires a <= b <= |s| && FitsAt(pattern, s[a..b], i)
    ensures FitsAt(pattern, s, a + i)
  {
    forall k | 0 <= k < |pattern|
      ensures Fits(pattern[k], s[a + i + k])
    {
      assert Fits(pattern[k], s[a..b][i + k]);
    }
  }

  lemma WordInPart(word: string, s: string, a: nat, b: nat, i: nat)
    requires a <= b <= |s| && WordAt(word, s[a..b], i)
    ensures WordAt(word, s, a + i)
  {
    forall k | 0 <= k < |word|
      ensures s[a + i..a + i + |word|][k] == word[k]
    {
      assert s[a..b][i..i + |word|][k] == word[k];
    }
  }

  /** A match in a part of a string is, at that place, a match in the string. */
  lemma MatchInPart(re: Regex, s: string, a: nat, b: nat, i: nat)
    requires a <= b <= |s| && MatchAt(re, s[a..b], i).Some?
    ensures MatchAt(re, s, a + i).Some?
  {
    FitsInPart(re.pattern, s, a, b, i);
    var word := FirstWord(re.words, s[a..b], i + |re.pattern|).value;
    WordInPart(word, s, a, b, i + |re.pattern|);
  }

  lemma NoMatchInPart(re: Regex, s: string, part: string)
    requires Find(re, s).None? && Within(part, s)
    ensures Find(re, part).None?
  {
    var a: nat :| WordAt(part, s, a);
    forall i | 0 <= i <= |part|
      ensures MatchAt(re, part, i).None?
    {
      if MatchAt(re, part, i).Some? {
        MatchInPart(re, s, a, a + |part|, i);
      }
    }
  }

  lemma WordOfPart(word: string, s: string, a: nat, b: nat, i: nat)
    requires a <= b <= |s| && a + i + |word| <= b && WordAt(word, s, a + i)
    ensures WordAt(word, s[a..b], i)
  {
    forall k | 0 <= k < |word|
      ensures s[a..b][i..i + |word|][k] == word[k]
    {
      assert s[a + i..a + i + |word|][k] == word[k];
    }
  }

  lemma {:induction false} SameFirstWord(words: seq<string>, s: string, a: nat, b: nat, i: nat, word: string)
    requires a <= b <= |s| && a + i + |word| <= b && FirstWord(words, s, a + i) == Some(word)
    ensures FirstWord(words, s[a..b], i) == Some(word)
  {
    if WordAt(words[0], s, a + i) {
      WordOfPart(word, s, a, b, i);
    } else {
      if WordAt(words[0], s[a..b], i) {
        WordInPart(words[0], s, a, b, i);
      }
      SameFirstWord(words[1..], s, a, b, i, word);
    }
  }

  /** What is matched is, on its own, matched as a whole. */
  lemma MatchedMatches(re: Regex, s: string, i: nat, n: nat)
    requires MatchAt(re, s, i) == Some(n)
    ensures Find(re, s[i..i + n]) == Some(s[i..i + n])
  {
    var part, len := s[i..i + n], |re.pattern|;
    var word := FirstWord(re.words, s, i + len).value;
    forall k | 0 <= k < len
      ensures Fits(re.pattern[k], part[k])
    {
      assert Fits(re.pattern[k], s[i + k]);
    }
    SameFirstWord(re.words, s, i, i + n, len, word);
    assert MatchAt(re, part, 0) == Some(n);
    assert part[0..0 + n] == part;
  }

  lemma FoundAgain(re: Regex, s: string)
    requires Find(re, s).Some?
    ensures Within(Find(re, s).value, s) && Find(re, Find(re, s).value) == Find(re, s)
  {
    var r := Find(re, s).value;
    var i := FindFrom(re, s, 0).value;
    assert WordAt(r, s, i);
    MatchedMatches(re, s, i, |r|);
  }

  lemma PrefixWithin(part: string, s: string)
    requires part <= s
    ensures Within(part, s)
  {
    assert WordAt(part, s, 0);
  }

  lemma LimitWithin(a: Regex, b: Regex, c: Regex, d: Regex, p: string, q: string, s: string)
    ensures Within(Limit(a, b, c, d, p, q, s), s)
  {
    if Find(a, s).Some? {
      FoundAgain(a, s);
    } else if Find(b, s).Some? {
      FoundAgain(b, s);
    } else if Find(c, s).Some? {
      FoundAgain(c, s);
    } else if Find(d, s).Some? {
      FoundAgain(d, s);
    } else {
      PrefixWithin(Limit(a, b, c, d, p, q, s), s);
    }
  }

  /** What an expression does not find in a subject it does not find in the result either. */
  lemma StillNotFound(re: Regex, s: string, r: string)
    requires Within(r, s)
    ensures Find(re, s).None? ==> Find(re, r).None?
  {
    if Find(re, s).None? {
      NoMatchInPart(re, s, r);
    }
  }

  lemma {:induction false} LimitTwice(a: Regex, b: Regex, c: Regex, d: Regex, p: string, q: string, s: string)
    ensures var r := Limit(a, b, c, d, p, q, s); Limit(a, b, c, d, p, q, r) == r
  {
    var r := Limit(a, b, c, d, p, q, s);
    LimitWithin(a, b, c, d, p, q, s);
    StillNotFound(a, s, r);
    StillNotFound(b, s, r);
    StillNotFound(c, s, r);
    StillNotFound(d, s, r);
    if Find(a, s).Some? {
      FoundAgain(a, s);
    } else if Find(b, s).Some? {
      FoundAgain(b, s);
    } else if Find(c, s).Some? {
      FoundAgain(c, s);
    } else if Find(d, s).Some? {
      FoundAgain(d, s);
    }
  }

  /** The result is a contiguous part of the subject. */
  lemma LimitIsPart(s: string)
    ensures Within(LimitJSSubject(s), s)
  {
    LimitWithin(STREAM_MSG, STREAM_CRUD, CONSUMER_CRUD, TEMPLATE_CRUD, DURABLE_CREATE, MSG_NEXT, s);
  }

  /** Cutting a subject a second time changes nothing, whatever the subject. */
  lemma LimitIsIdempotent(s: string)
    ensures LimitJSSubject(LimitJSSubject(s)) == LimitJSSubject(s)
  {
    LimitTwice(STREAM_MSG, STREAM_CRUD, CONSUMER_CRUD, TEMPLATE_CRUD, DURABLE_CREATE, MSG_NEXT, s);
  }

  // ----- What is left of an API call -----

  /** The words are told apart by their first letters. */
  ghost predicate DistinctInitials(words: seq<string>) {
    && (forall i :: 0 <= i < |words| ==> words[i] != "")
    && forall i, j :: 0 <= i < j < |words| ==> words[i][0] != words[j][0]
  }

  lemma {:induction false} OnlyWord(words: seq<string>, k: nat, s: string, i: nat)
    requires DistinctInitials(words) && k < |words| && WordAt(words[k], s, i)
    ensures FirstWord(words, s, i) == Some(words[k])
  {
    assert s[i] == words[k][0];
    if k > 0 {
      OnlyWord(words[1..], k - 1, s, i);
    }
  }

  /** Of a call that names an object after its verb, the prefix and the verb are found. */
  lemma CallFound(prefix: string, words: seq<string>, k: nat, rest: string)
    requires DistinctInitials(words) && k < |words|
    ensures var s := prefix + words[k] + rest;
            Find(Regex(Atoms(prefix), words), s) == Some(prefix + words[k])
  {
    var s, re := prefix + words[k] + rest, Regex(Atoms(prefix), words);
    assert FitsAt(re.pattern, s, 0);
    assert s[|prefix|..|prefix| + |words[k]|] == words[k];
    OnlyWord(words, k, s, |prefix|);
    assert MatchAt(re, s, 0) == Some(|prefix| + |words[k]|);
    assert s[0..|prefix| + |words[k]|] == prefix + words[k];
  }

  lemma VerbsDistinct()
    ensures DistinctInitials(MSG_VERBS) && DistinctInitials(STREAM_VERBS)
    ensures DistinctInitials(CONSUMER_VERBS) && DistinctInitials(TEMPLATE_VERBS)
  {
  }

  // ----- The result, told without the expressions -----

  /** The prefix, any character but a newline in place of each of its dots, and the verb stand
      at the place. */
  ghost predicate CallAt(prefix: string, verb: string, s: string, i: nat) {
    && i + |prefix| + |verb| <= |s|
    && (forall k :: 0 <= k < |prefix| ==> if prefix[k] == '.' then s[i + k] != '\n' else s[i + k] == prefix[k])
    && s[i + |prefix|..i + |prefix| + |verb|] == verb
  }

  ghost predicate CallsAt(prefix: string, verbs: seq<string>, s: string, i: nat) {
    exists k :: 0 <= k < |verbs| && CallAt(prefix, verbs[k], s, i)
  }

  ghost predicate Calls(prefix: string, verbs: seq<string>, s: string) {
    exists i: nat :: CallsAt(prefix, verbs, s, i)
  }

  /** The text is the leftmost call in the subject. */
  ghost predicate FirstCall(prefix: string, verbs: seq<string>, s: string, text: string) {
    exists i: nat, k: nat ::
      && k < |verbs| && CallAt(prefix, verbs[k], s, i) && text == s[i..i + |prefix| + |verbs[k]|]
      && forall j: nat :: j < i ==> !CallsAt(prefix, verbs, s, j)
  }

  lemma FitsIsCall(prefix: string, s: string, i: nat)
    ensures FitsAt(Atoms(prefix), s, i) <==>
            && i + |prefix| <= |s|
            && forall k :: 0 <= k < |prefix| ==> if prefix[k] == '.' then s[i + k] != '\n' else s[i + k] == prefix[k]
  {
    if FitsAt(Atoms(prefix), s, i) {
      forall k | 0 <= k < |prefix|
        ensures if prefix[k] == '.' then s[i + k] != '\n' else s[i + k] == prefix[k]
      {
        assert Fits(Atoms(prefix)[k], s[i + k]);
      }
    }
  }

  lemma MatchIsCall(prefix: string, verbs: seq<string>, s: string, i: nat)
    ensures MatchAt(Regex(Atoms(prefix), verbs), s, i).Some? <==> CallsAt(prefix, verbs, s, i)
  {
    FitsIsCall(prefix, s, i);
    if CallsAt(prefix, verbs, s, i) {
      var k :| 0 <= k < |verbs| && CallAt(prefix, verbs[k], s, i);
      assert WordAt(verbs[k], s, i + |prefix|);
    } else if MatchAt(Regex(Atoms(prefix), verbs), s, i).Some? {
      var k, n := MatchedVerb(prefix, verbs, s, i);
    }
  }

  lemma MatchedVerb(prefix: string, verbs: seq<string>, s: string, i: nat) returns (k: nat, n: nat)
    requires MatchAt(Regex(Atoms(prefix), verbs), s, i).Some?
    ensures k < |verbs| && CallAt(prefix, verbs[k], s, i) && n == |prefix| + |verbs[k]|
    ensures MatchAt(Regex(Atoms(prefix), verbs), s, i) == Some(n)
  {
    FitsIsCall(prefix, s, i);
    var word := FirstWord(verbs, s, i + |prefix|).value;
    k :| k < |verbs| && verbs[k] == word;
    n := |prefix| + |word|;
  }

  /** What an expression finds is the leftmost call of its kind. */
  lemma FoundIsCall(prefix: string, verbs: seq<string>, s: string)
    ensures var text := Find(Regex(Atoms(prefix), verbs), s);
            && (text.Some? <==> Calls(prefix, verbs, s))
            && (text.Some? ==> FirstCall(prefix, verbs, s, text.value))
  {
    var re := Regex(Atoms(prefix), verbs);
    if i: nat :| CallsAt(prefix, verbs, s, i) {
      MatchIsCall(prefix, verbs, s, i);
    }
    var at := FindFrom(re, s, 0);
    if at.Some? {
      var k, n := MatchedVerb(prefix, verbs, s, at.value);
      forall j: nat | j < at.value
        ensures !CallsAt(prefix, verbs, s, j)
      {
        MatchIsCall(prefix, verbs, s, j);
      }
      assert CallsAt(prefix, verbs, s, at.value);
    }
  }

  /** A subject that calls for a message is cut to the leftmost such call; otherwise one that
      calls for a stream to the leftmost of these, and so on through consumers and templates;
      otherwise one that begins like a durable consumer's creation or like a request for the
      next message is cut to that beginning; any other subject is left alone. */
  lemma LimitIs(s: string, text: string)
    requires text == LimitJSSubject(s)
    ensures var onMessage := Calls("$JS.API.STREAM.MSG.", ["GET", "DELETE"], s);
            var onStream := Calls("$JS.API.STREAM.", ["CREATE", "UPDATE", "DELETE", "INFO", "SNAPSHOT", "RESTORE"], s);
            var onConsumer := Calls("$JS.API.CONSUMER.",
                                    ["CREATE", "UPDATE", "DELETE", "INFO", "SNAPSHOT", "RESTORE", "NAMES"], s);
            var onTemplate := Calls("$JS.API.STREAM.TEMPLATE.", ["CREATE", "DELETE", "INFO"], s);
            if onMessage then FirstCall("$JS.API.STREAM.MSG.", ["GET", "DELETE"], s, text)
            else if onStream then
              FirstCall("$JS.API.STREAM.", ["CREATE", "UPDATE", "DELETE", "INFO", "SNAPSHOT", "RESTORE"], s, text)
            else if onConsumer then
              FirstCall("$JS.API.CONSUMER.",
                        ["CREATE", "UPDATE", "DELETE", "INFO", "SNAPSHOT", "RESTORE", "NAMES"], s, text)
            else if onTemplate then FirstCall("$JS.API.STREAM.TEMPLATE.", ["CREATE", "DELETE", "INFO"], s, text)
            else if "$JS.API.CONSUMER.DURABLE.CREATE" <= s then text == "$JS.API.CONSUMER.DURABLE.CREATE"
            else if "$JS.API.CONSUMER.MSG.NEXT" <= s then text == "$JS.API.CONSUMER.MSG.NEXT"
            else text == s
  {
    FoundIsCall(MSG_CALL, MSG_VERBS, s);
    FoundIsCall(STREAM_CALL, STREAM_VERBS, s);
    FoundIsCall(CONSUMER_CALL, CONSUMER_VERBS, s);
    FoundIsCall(TEMPLATE_CALL, TEMPLATE_VERBS, s);
  }

  /** A call on a message loses everything after its verb. */
  lemma MessageCalls(k: nat, rest: string)
    requires k < 2
    ensures var verb := ["GET", "DELETE"][k];
            LimitJSSubject("$JS.API.STREAM.MSG." + verb + rest) == "$JS.API.STREAM.MSG." + verb
  {
    VerbsDistinct();
    CallFound(MSG_CALL, MSG_VERBS, k, rest);
  }

  /** A call on a stream does, unless the subject contains a call on a message. */
  lemma StreamCalls(k: nat, rest: string)
    requires k < 6
    requires var verb := ["CREATE", "UPDATE", "DELETE", "INFO", "SNAPSHOT", "RESTORE"][k];
             !Calls("$JS.API.STREAM.MSG.", ["GET", "DELETE"], "$JS.API.STREAM." + verb + rest)
    ensures var verb := ["CREATE", "UPDATE", "DELETE", "INFO", "SNAPSHOT", "RESTORE"][k];
            LimitJSSubject("$JS.API.STREAM." + verb + rest) == "$JS.API.STREAM." + verb
  {
    VerbsDistinct();
    CallFound(STREAM_CALL, STREAM_VERBS, k, rest);
    FoundIsCall(MSG_CALL, MSG_VERBS, STREAM_CALL + STREAM_VERBS[k] + rest);
  }

  /** A call on a consumer does, unless the subject contains one on a message or a stream. */
  lemma ConsumerCalls(k: nat, rest: string)
    requires k < 7
    requires var s := "$JS.API.CONSUMER."
                      + ["CREATE", "UPDATE", "DELETE", "INFO", "SNAPSHOT", "RESTORE", "NAMES"][k] + rest;
             && !Calls("$JS.API.STREAM.MSG.", ["GET", "DELETE"], s)
             && !Calls("$JS.API.STREAM.", ["CREATE", "UPDATE", "DELETE", "INFO", "SNAPSHOT", "RESTORE"], s)
    ensures var verb := ["CREATE", "UPDATE", "DELETE", "INFO", "SNAPSHOT", "RESTORE", "NAMES"][k];
            LimitJSSubject("$JS.API.CONSUMER." + verb + rest) == "$JS.API.CONSUMER." + verb
  {
    VerbsDistinct();
    CallFound(CONSUMER_CALL, CONSUMER_VERBS, k, rest);
    FoundIsCall(MSG_CALL, MSG_VERBS, CONSUMER_CALL + CONSUMER_VERBS[k] + rest);
    FoundIsCall(STREAM_CALL, STREAM_VERBS, CONSUMER_CALL + CONSUMER_VERBS[k] + rest);
  }

  /** And so does a call on a template, unless the subject contains one of the others. */
  lemma TemplateCalls(k: nat, rest: string)
    requires k < 3
    requires var s := "$JS.API.STREAM.TEMPLATE." + ["CREATE", "DELETE", "INFO"][k] + rest;
             && !Calls("$JS.API.STREAM.MSG.", ["GET", "DELETE"], s)
             && !Calls("$JS.API.STREAM.", ["CREATE", "UPDATE", "DELETE", "INFO", "SNAPSHOT", "RESTORE"], s)
             && !Calls("$JS.API.CONSUMER.",
                       ["CREATE", "UPDATE", "DELETE", "INFO", "SNAPSHOT", "RESTORE", "NAMES"], s)
    ensures var verb := ["CREATE", "DELETE", "INFO"][k];
            LimitJSSubject("$JS.API.STREAM.TEMPLATE." + verb + rest) == "$JS.API.STREAM.TEMPLATE." + verb
  {
    var s := TEMPLATE_CALL + TEMPLATE_VERBS[k] + rest;
    VerbsDistinct();
    CallFound(TEMPLATE_CALL, TEMPLATE_VERBS, k, rest);
    FoundIsCall(MSG_CALL, MSG_VERBS, s);
    FoundIsCall(STREAM_CALL, STREAM_VERBS, s);
    FoundIsCall(CONSUMER_CALL, CONSUMER_VERBS, s);
  }

  /** Where the dollar sign is only in front, so is a call. */
  lemma CallsInFront(prefix: string, verbs: seq<string>, s: string)
    requires prefix != "" && prefix[0] == '$' && forall i :: 0 < i < |s| ==> s[i] != '$'
    ensures Calls(prefix, verbs, s) ==> CallsAt(prefix, verbs, s, 0)
  {
    if Calls(prefix, verbs, s) {
      var i: nat :| CallsAt(prefix, verbs, s, i);
      var k :| 0 <= k < |verbs| && CallAt(prefix, verbs[k], s, i);
      assert s[i + 0] == prefix[0];
    }
  }

  lemma NotInFront(prefix: string, verbs: seq<string>, s: string, i: nat)
    requires i < |prefix| && i < |s| && prefix[i] != '.' && s[i] != prefix[i]
    ensures !CallsAt(prefix, verbs, s, 0)
  {
    assert forall k :: 0 <= k < |verbs| && CallAt(prefix, verbs[k], s, 0) ==> s[0 + i] == prefix[i];
  }

  lemma NotWord(word: string, s: string, i: nat, j: nat)
    requires j < |word| && i + j < |s| && word[j] != s[i + j]
    ensures !WordAt(word, s, i)
  {
    assert i + |word| <= |s| ==> s[i..i + |word|][j] == s[i + j];
  }

  lemma NoVerb(s: string)
    requires |s| > 18 && (s[17] == 'M' || (s[17] == 'D' && s[18] == 'U'))
    ensures forall k :: 0 <= k < |CONSUMER_VERBS| ==> !WordAt(CONSUMER_VERBS[k], s, 17)
  {
    NotWord("CREATE", s, 17, 0);
    NotWord("UPDATE", s, 17, 0);
    NotWord("DELETE", s, 17, if s[17] == 'M' then 0 else 1);
    NotWord("INFO", s, 17, 0);
    NotWord("SNAPSHOT", s, 17, 0);
    NotWord("RESTORE", s, 17, 0);
    NotWord("NAMES", s, 17, 0);
  }

  /** A subject that calls for a consumer by none of the usual verbs contains no call. */
  lemma NoCalls(s: string)
    requires "$JS.API.CONSUMER." <= s && forall i :: 0 < i < |s| ==> s[i] != '$'
    requires forall k :: 0 <= k < |CONSUMER_VERBS| ==> !WordAt(CONSUMER_VERBS[k], s, 17)
    ensures !Calls(MSG_CALL, MSG_VERBS, s) && !Calls(STREAM_CALL, STREAM_VERBS, s)
    ensures !Calls(CONSUMER_CALL, CONSUMER_VERBS, s) && !Calls(TEMPLATE_CALL, TEMPLATE_VERBS, s)
  {
    assert s[8] == 'C';
    NotInFront(MSG_CALL, MSG_VERBS, s, 8);
    NotInFront(STREAM_CALL, STREAM_VERBS, s, 8);
    NotInFront(TEMPLATE_CALL, TEMPLATE_VERBS, s, 8);
    CallsInFront(MSG_CALL, MSG_VERBS, s);
    CallsInFront(STREAM_CALL, STREAM_VERBS, s);
    CallsInFront(TEMPLATE_CALL, TEMPLATE_VERBS, s);
    CallsInFront(CONSUMER_CALL, CONSUMER_VERBS, s);
    assert !CallsAt(CONSUMER_CALL, CONSUMER_VERBS, s, 0);
  }

  /** Creating a durable consumer loses what follows, if that has no dollar sign. */
  lemma DurableCalls(rest: string)
    requires '$' !in rest
    ensures LimitJSSubject("$JS.API.CONSUMER.DURABLE.CREATE" + rest) == "$JS.API.CONSUMER.DURABLE.CREATE"
  {
    var s := "$JS.API.CONSUMER.DURABLE.CREATE" + rest;
    NoVerb(s);
    NoCalls(s);
    LimitIs(s, LimitJSSubject(s));
  }

  /** And so does asking for the next message. */
  lemma NextCalls(rest: string)
    requires '$' !in rest
    ensures LimitJSSubject("$JS.API.CONSUMER.MSG.NEXT" + rest) == "$JS.API.CONSUMER.MSG.NEXT"
  {
    var s := "$JS.API.CONSUMER.MSG.NEXT" + rest;
    assert s[17] == 'M' && DURABLE_CREATE[17] == 'D';
    assert !(DURABLE_CREATE <= s);
    NoVerb(s);
    NoCalls(s);
    LimitIs(s, LimitJSSubject(s));
  }
}
