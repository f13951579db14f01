/** Typed rules (crates/sortinghat-core): evaluation against the facts of one file. */
module Rules {
  import opened Model
  import Paths

  const MAX_RULES: nat := 1000
  const MAX_VALUE_BYTES: nat := 255

  datatype FileFacts = FileFacts(
    extension: Option<string>, mime: Option<string>, filename: string, sourceRoot: Id,
    sourceDirectory: string, completed: bool)

  datatype Decision =
    | Destination(choice: Choice, ruleIds: seq<Id>)
    | Tie(choices: set<Choice>, ruleIds: seq<Id>)
    | Abstain

  datatype RuleError = TooManyRules | InvalidRule

  function LowerChar(c: char): char {
    if 'A' <= c <= 'Z' then c + ('a' - 'A') else c
  }

  function LowerAscii(s: string): (r: string)
    ensures |r| == |s|
  {
    seq(|s|, i requires 0 <= i < |s| => LowerChar(s[i]))
  }

  /** The same character, or the same letter of the alphabet in another case. */
  predicate SameLetter(c: char, d: char) {
    || c == d
    || ('A' <= c <= 'Z' && d as int == c as int + 32)
    || ('A' <= d <= 'Z' && c as int == d as int + 32)
  }

  predicate SameButCase(s: string, t: string) {
    |s| == |t| && forall i :: 0 <= i < |s| ==> SameLetter(s[i], t[i])
  }

  /** Lower-casing makes two strings equal exactly if they differ in nothing but the case of their letters. */
  lemma CaseIsAllThatIsLost(s: string, t: string)
    ensures LowerAscii(s) == LowerAscii(t) <==> SameButCase(s, t)
  {
    if LowerAscii(s) == LowerAscii(t) {
      forall i | 0 <= i < |s| ensures SameLetter(s[i], t[i]) {
        assert LowerAscii(s)[i] == LowerAscii(t)[i];
      }
    }
  }

  predicate ValidPredicate(env: Env, p: Predicate) {
    match p
    case FilenameGlob(value) => env.globValid(value)
    case Extension(value) => 0 < |value| <= MAX_VALUE_BYTES
    case VerifiedMime(value) => 0 < |value| <= MAX_VALUE_BYTES
    case SourceDirectory(value) => Paths.ValidDirectory(value)
    case _ => true
  }

  predicate ValidRule(env: Env, rule: Rule) {
    && rule.predicates != []
    && Paths.ValidDirectory(rule.destinationDirectory)
    && forall p <- rule.predicates ::
         && (p.Extension? || p.VerifiedMime? ==> 0 < |p.value| <= 255)
         && (p.FilenameGlob? ==> env.globValid(p.value))
         && (p.SourceDirectory? ==> Paths.ValidDirectory(p.value))
  }

  predicate PredicateMatches(env: Env, p: Predicate, facts: FileFacts) {
    match p
    case Extension(value) => facts.extension.Some? && LowerAscii(facts.extension.value) == LowerAscii(value)
    case VerifiedMime(value) => facts.mime == Some(value)
    case FilenameGlob(value) => env.globValid(value) && env.globMatch(value, facts.filename)
    case SourceRoot(id) => facts.sourceRoot == id
    case SourceDirectory(value) => facts.sourceDirectory == value
    case IsCompleted => facts.completed
  }

  predicate AllMatch(env: Env, predicates: seq<Predicate>, facts: FileFacts) {
    forall i :: 0 <= i < |predicates| ==> PredicateMatches(env, predicates[i], facts)
  }

  /** Everything the rule asks for is true of the file; extensions may differ in case. */
  predicate RuleMatches(env: Env, rule: Rule, facts: FileFacts) {
    forall p <- rule.predicates ::
      && (p.Extension? ==> facts.extension.Some? && SameButCase(facts.extension.value, p.value))
      && (p.VerifiedMime? ==> facts.mime == Some(p.value))
      && (p.FilenameGlob? ==> env.globValid(p.value) && env.globMatch(p.value, facts.filename))
      && (p.SourceRoot? ==> facts.sourceRoot == p.id)
      && (p.SourceDirectory? ==> facts.sourceDirectory == p.value)
      && (p.IsCompleted? ==> facts.completed)
  }

  lemma MatchingIsMeant(env: Env, rule: Rule, facts: FileFacts)
    ensures AllMatch(env, rule.predicates, facts) <==> RuleMatches(env, rule, facts)
  {
    forall p | p in rule.predicates && p.Extension? && facts.extension.Some?
      ensures LowerAscii(facts.extension.value) == LowerAscii(p.value) <==> SameButCase(facts.extension.value, p.value)
    {
      CaseIsAllThatIsLost(facts.extension.value, p.value);
    }
    hide SameButCase;
    if RuleMatches(env, rule, facts) {
      forall i | 0 <= i < |rule.predicates| ensures PredicateMatches(env, rule.predicates[i], facts) {
        assert rule.predicates[i] in rule.predicates;
      }
    }
  }

  function ChoiceOf(rule: Rule): Choice {
    Choice(rule.destinationRoot, rule.destinationDirectory)
  }

  // ---------------------------------------------------------------- meaning

  /** No matching rule outranks this matching rule. */
  ghost predicate Top(env: Env, rules: seq<Rule>, facts: FileFacts, rule: Rule) {
    && rule in rules
    && RuleMatches(env, rule, facts)
    && forall other <- rules :: RuleMatches(env, other, facts) ==> other.priority <= rule.priority
  }

  /** The destinations named by the matching rules of maximum priority. */
  ghost function Winners(env: Env, rules: seq<Rule>, facts: FileFacts): set<Choice> {
    set rule | rule in rules && Top(env, rules, facts, rule) :: ChoiceOf(rule)
  }

  ghost predicate AllValid(env: Env, rules: seq<Rule>) {
    |rules| <= 1000 && forall rule <- rules :: ValidRule(env, rule)
  }

  /** Several winners tie, one decides, none abstains; every deciding rule is credited in order. */
  ghost predicate Means(env: Env, rules: seq<Rule>, facts: FileFacts, d: Decision) {
    var winners := Winners(env, rules, facts);
    match d
    case Destination(choice, ids) => winners == {choice} && ids == TopIds(env, rules, facts, rules)
    case Tie(choices, ids) => winners == choices && |choices| > 1 && ids == TopIds(env, rules, facts, rules)
    case Abstain => winners == {}
  }

  ghost function TopIds(env: Env, rules: seq<Rule>, facts: FileFacts, among: seq<Rule>): seq<Id> {
    if among == [] then []
    else
      var last := among[|among| - 1];
      TopIds(env, rules, facts, among[..|among| - 1]) + (if Top(env, rules, facts, last) then [last.id] else [])
  }

  // ---------------------------------------------------------------- evaluation

  function MaxPriority(matches: seq<Rule>): (r: int)
    requires matches != []
    ensures exists rule <- matches :: rule.priority == r
    ensures forall rule <- matches :: rule.priority <= r
  {
    if |matches| == 1 then matches[0].priority
    else
      var rest := MaxPriority(matches[1..]);
      assert forall rule <- matches :: rule == matches[0] || rule in matches[1..];
      if matches[0].priority < rest then rest else matches[0].priority
  }

  function WithPriority(matches: seq<Rule>, priority: int): (r: seq<Rule>)
    ensures forall rule :: rule in r <==> rule in matches && rule.priority == priority
  {
    if matches == [] then []
    else
      var last := matches[|matches| - 1];
      assert forall rule :: rule in matches <==> rule in matches[..|matches| - 1] || rule == last;
      WithPriority(matches[..|matches| - 1], priority) + (if last.priority == priority then [last] else [])
  }

  function Ids(rules: seq<Rule>): seq<Id> {
    seq(|rules|, i requires 0 <= i < |rules| => rules[i].id)
  }

  method ValidateRule(env: Env, rule: Rule) returns (ok: bool)
    ensures ok <==> ValidRule(env, rule)
  {
    if rule.predicates == [] || !Paths.ValidDirectory(rule.destinationDirectory) {
      return false;
    }
    for i := 0 to |rule.predicates|
      invariant forall j :: 0 <= j < i ==> ValidPredicate(env, rule.predicates[j])
    {
      if !ValidPredicate(env, rule.predicates[i]) {
        assert rule.predicates[i] in rule.predicates;
        return false;
      }
    }
    return true;
  }

  /** The rules of a list that match, in order. */
  ghost function Matching(env: Env, rules: seq<Rule>, facts: FileFacts): (r: seq<Rule>)
    ensures forall rule :: rule in r <==> rule in rules && RuleMatches(env, rule, facts)
  {
    if rules == [] then []
    else
      var rest := Matching(env, rules[..|rules| - 1], facts);
      var last := rules[|rules| - 1];
      assert forall rule :: rule in rules <==> rule in rules[..|rules| - 1] || rule == last;
      if RuleMatches(env, last, facts) then rest + [last] else rest
  }

  method EvaluateRules(env: Env, rules: seq<Rule>, facts: FileFacts) returns (r: Result<Decision, RuleError>)
    ensures r.Err? <==> !AllValid(env, rules)
    ensures r.Err? ==> (r.error.TooManyRules? <==> |rules| > 1000)
    ensures r.Ok? ==> Means(env, rules, facts, r.value)
  {
    hide RuleMatches;
    hide AllMatch;
    hide ValidRule;
    if |rules| > MAX_RULES {
      return Err(TooManyRules);
    }
    var matches: seq<Rule> := [];
    for i := 0 to |rules|
      invariant forall rule <- rules[..i] :: ValidRule(env, rule)
      invariant matches == Matching(env, rules[..i], facts)
    {
      assert rules[..i + 1][..i] == rules[..i];
      var ok := ValidateRule(env, rules[i]);
      if !ok {
        return Err(InvalidRule);
      }
      MatchingIsMeant(env, rules[i], facts);
      if AllMatch(env, rules[i].predicates, facts) {
        matches := matches + [rules[i]];
      }
    }
    assert rules[..|rules|] == rules;
    if matches == [] {
      return Ok(Abstain);
    }
    var top := WithPriority(matches, MaxPriority(matches));
    var destinations := set rule | rule in top :: ChoiceOf(rule);
    assert forall rule :: rule in top <==> Top(env, rules, facts, rule);
    assert destinations == Winners(env, rules, facts);
    TopIdsAre(env, rules, facts, MaxPriority(matches), rules);
    assert ChoiceOf(top[0]) in destinations;
    if |destinations| == 1 {
      var choice :| choice in destinations;
      Singleton(destinations, choice);
      return Ok(Destination(choice, Ids(top)));
    }
    return Ok(Tie(destinations, Ids(top)));
  }

  lemma Singleton<T>(s: set<T>, x: T)
    requires |s| == 1 && x in s
    ensures s == {x}
  {
    assert |s - {x}| == 0;
  }

  /** Filtering the matches by their maximum priority keeps exactly the top rules, in order. */
  lemma {:induction false} TopIdsAre(env: Env, rules: seq<Rule>, facts: FileFacts, top: int, among: seq<Rule>)
    requires forall rule <- among :: Top(env, rules, facts, rule) <==> RuleMatches(env, rule, facts) && rule.priority == top
    ensures Ids(WithPriority(Matching(env, among, facts), top)) == TopIds(env, rules, facts, among)
  {
    if among != [] {
      var init, last := among[..|among| - 1], among[|among| - 1];
      assert last in among;
      TopIdsAre(env, rules, facts, top, init);
      var matches := Matching(env, init, facts);
      assert (matches + [last])[..|matches|] == matches;
      var kept := WithPriority(matches, top);
      assert Ids(kept + [last]) == Ids(kept) + [last.id];
    }
  }

  // ---------------------------------------------------------------- laws

  /** What evaluation says about a list: the winners, or nothing when it is refused. */
  ghost function Outcome(env: Env, rules: seq<Rule>, facts: FileFacts): Option<set<Choice>> {
    if AllValid(env, rules) then Some(Winners(env, rules, facts)) else None
  }

  lemma SameWinners(env: Env, rules: seq<Rule>, others: seq<Rule>, facts: FileFacts)
    requires forall rule :: Top(env, rules, facts, rule) <==> Top(env, others, facts, rule)
    ensures Winners(env, rules, facts) == Winners(env, others, facts)
  {
    forall c ensures c in Winners(env, rules, facts) <==> c in Winners(env, others, facts) {
      if c in Winners(env, rules, facts) {
        var rule :| rule in rules && Top(env, rules, facts, rule) && ChoiceOf(rule) == c;
        assert Top(env, others, facts, rule);
      }
      if c in Winners(env, others, facts) {
        var rule :| rule in others && Top(env, others, facts, rule) && ChoiceOf(rule) == c;
        assert Top(env, rules, facts, rule);
      }
    }
  }

  /** Reordering the list changes nothing. */
  lemma OrderIsIrrelevant(env: Env, rules: seq<Rule>, permuted: seq<Rule>, facts: FileFacts)
    requires multiset(rules) == multiset(permuted)
    ensures Outcome(env, permuted, facts) == Outcome(env, rules, facts)
  {
    assert |rules| == |multiset(rules)| == |multiset(permuted)| == |permuted|;
    assert forall rule :: rule in rules <==> rule in multiset(rules);
    assert forall rule :: rule in permuted <==> rule in multiset(permuted);
    assert forall rule :: rule in rules <==> rule in permuted;
    SameWinners(env, rules, permuted, facts);
  }

  /** Valid rules that some match outranks may be added anywhere without changing the outcome. */
  lemma OutrankedIsIrrelevant(env: Env, rules: seq<Rule>, extra: seq<Rule>, all: seq<Rule>, facts: FileFacts)
    requires multiset(all) == multiset(rules) + multiset(extra) && |all| <= MAX_RULES
    requires forall rule <- extra :: ValidRule(env, rule)
    requires forall rule <- extra :: exists match' <- rules :: RuleMatches(env, match', facts) && rule.priority < match'.priority
    ensures Outcome(env, all, facts) == Outcome(env, rules, facts)
  {
    assert |all| == |multiset(all)| == |rules| + |extra|;
    assert forall rule :: rule in rules <==> rule in multiset(rules);
    assert forall rule :: rule in extra <==> rule in multiset(extra);
    assert forall rule :: rule in all <==> rule in multiset(all);
    assert forall rule :: rule in all <==> rule in rules || rule in extra;
    SameWinners(env, rules, all, facts);
  }

  /** A rule that asks for an extension does not match two files whose extensions differ in more than case. */
  lemma ExtensionsAreToldApart(env: Env, rule: Rule, value: string, facts: FileFacts, facts': FileFacts)
    requires Extension(value) in rule.predicates
    requires RuleMatches(env, rule, facts) && RuleMatches(env, rule, facts')
    ensures facts.extension.Some? && facts'.extension.Some?
    ensures SameButCase(facts.extension.value, facts'.extension.value)
  {
    var p := Extension(value);
    assert p in rule.predicates;
  }

  // ---------------------------------------------------------------- learned rules

  function LastDot(s: string): (i: int)
    ensures -1 <= i < |s|
  {
    if s == "" then -1 else if s[|s| - 1] == '.' then |s| - 1 else LastDot(s[..|s| - 1])
  }

  /** The standard library's file extension: none for a name whose only dot is its first byte. */
  function FileExtension(name: Name): Option<string> {
    var dot := LastDot(name);
    if name == ".." || dot <= 0 then None else Some(name[dot + 1..])
  }

  function FactsFor(relative: Path, root: Id, mime: Option<string>): FileFacts
    requires relative != []
  {
    var ext := FileExtension(FileName(relative));
    FileFacts(
      match ext case None => None case Some(e) => Some(LowerAscii(e)),
      mime, FileName(relative), root, Paths.Join(Parent(relative)), true)
  }

  /** What follows the last dot of the name, in lower case; the first character is not taken for that dot. */
  predicate IsExtension(name: Name, ext: string) {
    && name != ".."
    && (exists i :: 1 <= i < |name| && name[i] == '.' && '.' !in name[i + 1..] && SameButCase(ext, name[i + 1..]))
    && forall c <- ext :: !('A' <= c <= 'Z')
  }

  predicate HasExtension(name: Name) {
    name != ".." && exists i :: 1 <= i < |name| && name[i] == '.'
  }

  /** These are the facts of a finished file at this path below this root. */
  predicate Describes(facts: FileFacts, relative: Path, root: Id, mime: Option<string>)
    requires relative != []
  {
    && facts.mime == mime && facts.filename == FileName(relative) && facts.sourceRoot == root
    && facts.sourceDirectory == Paths.Join(Parent(relative)) && facts.completed
    && if facts.extension.Some? then IsExtension(FileName(relative), facts.extension.value) else !HasExtension(FileName(relative))
  }

  lemma {:induction false} LastDotIsLast(s: string)
    ensures LastDot(s) >= 0 ==> s[LastDot(s)] == '.'
    ensures forall i :: LastDot(s) < i < |s| ==> s[i] != '.'
  {
    if s != "" && s[|s| - 1] != '.' {
      LastDotIsLast(s[..|s| - 1]);
      assert forall i :: 0 <= i < |s| - 1 ==> s[..|s| - 1][i] == s[i];
    }
  }

  lemma LowerIsLower(s: string)
    ensures SameButCase(LowerAscii(s), s) && forall c <- LowerAscii(s) :: !('A' <= c <= 'Z')
  {
  }

  lemma ExtensionIsMeant(name: Name)
    ensures FileExtension(name).Some? ==> IsExtension(name, LowerAscii(FileExtension(name).value))
    ensures FileExtension(name).None? ==> !HasExtension(name)
  {
    LastDotIsLast(name);
    if FileExtension(name).Some? {
      LowerIsLower(FileExtension(name).value);
    }
  }

  /** A name has at most one extension. */
  lemma OneExtension(name: Name, ext: string)
    requires IsExtension(name, ext)
    ensures FileExtension(name).Some? && ext == LowerAscii(FileExtension(name).value)
  {
    var i :| 1 <= i < |name| && name[i] == '.' && '.' !in name[i + 1..] && SameButCase(ext, name[i + 1..]);
    LastDotIs(name, i);
    CaseIsAllThatIsLost(ext, name[i + 1..]);
    AlreadyLower(ext);
    hide LowerAscii;
    hide SameButCase;
  }

  lemma LastDotIs(s: string, i: nat)
    requires i < |s| && s[i] == '.' && '.' !in s[i + 1..]
    ensures LastDot(s) == i
  {
    LastDotIsLast(s);
    assert forall j :: i < j < |s| ==> s[j] == s[i + 1..][j - i - 1];
  }

  lemma AlreadyLower(s: string)
    requires forall c <- s :: !('A' <= c <= 'Z')
    ensures LowerAscii(s) == s
  {
    assert forall i :: 0 <= i < |s| ==> s[i] in s && LowerAscii(s)[i] == s[i];
  }

  lemma ExtensionMeansDot(name: Name)
    ensures FileExtension(name).Some? <==> HasExtension(name)
  {
    LastDotIsLast(name);
  }

  /** The facts gathered are those of the file. */
  lemma FactsDescribe(relative: Path, root: Id, mime: Option<string>)
    requires relative != []
    ensures Describes(FactsFor(relative, root, mime), relative, root, mime)
    ensures forall facts :: Describes(facts, relative, root, mime) ==> facts == FactsFor(relative, root, mime)
  {
    ExtensionIsMeant(FileName(relative));
    forall facts | Describes(facts, relative, root, mime) ensures facts == FactsFor(relative, root, mime) {
      if facts.extension.Some? {
        OneExtension(FileName(relative), facts.extension.value);
      } else {
        ExtensionMeansDot(FileName(relative));
      }
    }
  }

  function LearnedRule(id: Id, priority: int, relative: Path, choice: Choice): Option<Rule>
    requires relative != []
  {
    match FileExtension(FileName(relative))
    case None => None
    case Some(ext) => Some(Rule(id, priority, [Extension(LowerAscii(ext))], choice.root, choice.directory))
  }

  /** A stored learned rule, when it outranks every other match, decides its own destination for the
      file it was learned from, whatever content type is sniffed later. */
  lemma LearnedRuleDecides(
      env: Env, rules: seq<Rule>, id: Id, priority: int, relative: Path, root: Id, choice: Choice, mime: Option<string>)
    requires relative != [] && LearnedRule(id, priority, relative, choice).Some?
    requires AllValid(env, rules)
    requires LearnedRule(id, priority, relative, choice).value in rules
    requires forall rule <- rules ::
               (rule != LearnedRule(id, priority, relative, choice).value
                && RuleMatches(env, rule, FactsFor(relative, root, mime))) ==> rule.priority < priority
    ensures Outcome(env, rules, FactsFor(relative, root, mime)) == Some({choice})
  {
    var learned := LearnedRule(id, priority, relative, choice).value;
    var facts := FactsFor(relative, root, mime);
    assert RuleMatches(env, learned, facts);
    assert Top(env, rules, facts, learned);
    assert forall rule :: Top(env, rules, facts, rule) ==> rule == learned;
    assert ChoiceOf(learned) == choice;
    assert Winners(env, rules, facts) == {choice};
  }
}
