/** The validation-rule merge engine: a field's rules are normalised into an
    `attribute -> rules` map and merged, attribute by attribute, into the map an
    element (a field or a Komposer) keeps under `data('rules')`. */
module ValidationManager {
  import opened Kompo

  /** The stored form: each attribute's ordered list of rule tokens. */
  type RulesMap = map<string, seq<string>>

  /** One attribute's rules as declared: a pipe-delimited string
      ("required|max:255") or a list of tokens. */
  datatype RuleDecl = Pipe(text: string) | Tokens(tokens: seq<string>)

  /** The argument of `rules()`: rules for the field itself, or an array keyed
      by attribute names. */
  datatype RulesArg = Single(decl: RuleDecl) | Keyed(byAttribute: map<string, RuleDecl>)

  /** `explode('|', s)`: the pieces of `s` between pipes; never empty, and no
      piece holds a pipe. */
  function Split(s: string): (r: seq<string>)
    ensures |r| >= 1
    ensures forall i :: 0 <= i < |r| ==> '|' !in r[i]
  {
    if s == [] then [""]
    else if s[0] == '|' then [""] + Split(s[1..])
    else
      var rest := Split(s[1..]);
      [[s[0]] + rest[0]] + rest[1..]
  }

  /** `implode('|', parts)`, the inverse of Split. */
  function Join(parts: seq<string>): string {
    if |parts| == 0 then ""
    else if |parts| == 1 then parts[0]
    else parts[0] + "|" + Join(parts[1..])
  }

  lemma {:induction false} JoinSplit(s: string)
    ensures Join(Split(s)) == s
  {
    if s == [] {
    } else if s[0] == '|' {
      JoinSplit(s[1..]);
      assert Split(s) == [""] + Split(s[1..]);
    } else {
      var rest := Split(s[1..]);
      JoinSplit(s[1..]);
      if |rest| == 1 {
        assert Split(s) == [[s[0]] + rest[0]];
      } else {
        assert Split(s) == [[s[0]] + rest[0]] + rest[1..];
        assert Join(Split(s)) == [s[0]] + rest[0] + "|" + Join(rest[1..]);
        assert Join(rest) == rest[0] + "|" + Join(rest[1..]);
      }
      assert s == [s[0]] + s[1..];
    }
  }

  /** Splitting text that starts with a pipe-free prefix glues that prefix to
      the first piece. */
  lemma {:induction false} SplitPrefix(p: string, t: string)
    requires '|' !in p
    ensures Split(p + t) == [p + Split(t)[0]] + Split(t)[1..]
  {
    if p == [] {
      var r := Split(t);
      assert p + t == t && p + r[0] == r[0];
      assert r == [r[0]] + r[1..];
    } else {
      assert (p + t)[0] == p[0];
      assert (p + t)[1..] == p[1..] + t;
      SplitPrefix(p[1..], t);
      assert [p[0]] + (p[1..] + Split(t)[0]) == p + Split(t)[0];
    }
  }

  lemma {:induction false} SplitJoin(parts: seq<string>)
    requires |parts| >= 1
    requires forall i :: 0 <= i < |parts| ==> '|' !in parts[i]
    ensures Split(Join(parts)) == parts
  {
    if |parts| == 1 {
      SplitPrefix(parts[0], "");
      assert parts[0] + "" == parts[0];
    } else {
      var tail := Join(parts[1..]);
      SplitJoin(parts[1..]);
      assert Split("|" + tail) == [""] + Split(tail);
      assert parts[0] + "|" + tail == parts[0] + ("|" + tail);
      SplitPrefix(parts[0], "|" + tail);
      assert parts[0] + "" == parts[0];
      assert parts == [parts[0]] + parts[1..];
    }
  }

  /** A declaration as a list of tokens: strings are split on `|`, lists are
      taken as they are. */
  function Tokenize(d: RuleDecl): seq<string> {
    match d
    case Pipe(text) => Split(text)
    case Tokens(ts) => ts
  }

  /** `$oldRules[$attribute] ?? []` */
  function Stored(rules: RulesMap, attribute: string): seq<string> {
    if attribute in rules then rules[attribute] else []
  }

  /** `mergeAttribute`: the prior tokens, then the newly declared ones. */
  function MergeAttribute(validations: RuleDecl, prior: seq<string>): (r: seq<string>)
    ensures |r| == |prior| + |Tokenize(validations)|
    ensures r[..|prior|] == prior && r[|prior|..] == Tokenize(validations)
  {
    prior + Tokenize(validations)
  }

  /** `mergeRules`: every declared attribute gets its merged token list;
      `array_replace` keeps every other stored attribute as it was. */
  function MergeRules(rules: map<string, RuleDecl>, prior: RulesMap): (r: RulesMap)
    ensures r.Keys == prior.Keys + rules.Keys
    ensures forall a :: a in prior && a !in rules ==> r[a] == prior[a]
    ensures forall a :: a in rules ==> r[a] == Stored(prior, a) + Tokenize(rules[a])
  {
    prior + map a | a in rules :: MergeAttribute(rules[a], Stored(prior, a))
  }

  /** Merging never drops a stored rule: each prior token list is a prefix of
      the merged one. */
  lemma MergeKeepsOldRules(rules: map<string, RuleDecl>, prior: RulesMap, a: string)
    requires a in prior
    ensures a in MergeRules(rules, prior)
    ensures prior[a] <= MergeRules(rules, prior)[a]
  {
  }

  /** Merging the same declarations twice repeats their tokens: merging is not
      idempotent whenever a declaration yields a token. */
  lemma MergeTwiceRepeats(rules: map<string, RuleDecl>, prior: RulesMap, a: string)
    requires a in rules
    ensures MergeRules(rules, MergeRules(rules, prior))[a]
            == Stored(prior, a) + Tokenize(rules[a]) + Tokenize(rules[a])
    ensures Tokenize(rules[a]) != [] ==>
              MergeRules(rules, MergeRules(rules, prior)) != MergeRules(rules, prior)
  {
    var once := MergeRules(rules, prior);
    var twice := MergeRules(rules, once);
    assert Stored(once, a) == Stored(prior, a) + Tokenize(rules[a]);
    if Tokenize(rules[a]) != [] {
      assert |twice[a]| > |once[a]|;
    }
  }

  /** `setFieldRules`: an array is used as it is only when it is keyed by the
      field's name; any other declaration is wrapped as `{name: rules}`. None
      stands for a keyed array that lacks the name (see README). */
  function FieldRules(arg: RulesArg, name: string): (r: Option<map<string, RuleDecl>>)
    ensures r.Some? <==> (arg.Single? || name in arg.byAttribute)
    ensures r.Some? ==> name in r.value
    ensures arg.Single? ==> r.value.Keys == {name} && r.value[name] == arg.decl
    ensures arg.Keyed? && r.Some? ==> r.value == arg.byAttribute
  {
    match arg
    case Single(d) => Some(map[name := d])
    case Keyed(m) => if name in m then Some(m) else None
  }

  /** A field's `rules(d)` appends the tokens of `d` under the field's name and
      leaves every other attribute alone. */
  lemma FieldRulesAppendUnderName(d: RuleDecl, name: string, prior: RulesMap)
    ensures FieldRules(Single(d), name).Some?
    ensures var r := MergeRules(FieldRules(Single(d), name).value, prior);
            && r.Keys == prior.Keys + {name}
            && r[name] == Stored(prior, name) + Tokenize(d)
            && forall a :: a in prior && a != name ==> r[a] == prior[a]
  {
  }

  /** `required()` adds exactly the token "required" under the field's name. */
  lemma {:induction false} RequiredAddsToken(name: string, prior: RulesMap)
    ensures MergeRules(FieldRules(Single(Pipe("required")), name).value, prior)[name]
            == Stored(prior, name) + ["required"]
  {
    SplitJoin(["required"]);
    assert Join(["required"]) == "required";
  }

  /** Stored token lists given back as declarations, as
      `pushFieldRulesToKomposer` hands a field's stored rules to the Komposer. */
  function AsDecls(rules: RulesMap): (r: map<string, RuleDecl>)
    ensures r.Keys == rules.Keys
    ensures forall a :: a in rules ==> Tokenize(r[a]) == rules[a]
  {
    map a | a in rules :: Tokens(rules[a])
  }

  /** The Komposer's rules after `pushFieldRulesToKomposer`: untouched when the
      field has no rules, otherwise the field's tokens appended attribute by
      attribute. */
  function PushedRules(fieldRules: RulesMap, komposerRules: RulesMap): (r: RulesMap)
    ensures fieldRules == map[] ==> r == komposerRules
    ensures r.Keys == komposerRules.Keys + fieldRules.Keys
    ensures forall a :: a in fieldRules ==> r[a] == Stored(komposerRules, a) + fieldRules[a]
    ensures forall a :: a in komposerRules && a !in fieldRules ==> r[a] == komposerRules[a]
  {
    if fieldRules == map[] then komposerRules
    else MergeRules(AsDecls(fieldRules), komposerRules)
  }
}
