/** The `--west-env` parser of `init`: the string is split on single spaces,
    every token is split on `=`, and `dict()` is built from the resulting
    lists, failing on the first list whose length is not two and letting a
    later key override an earlier one. */
module WestEnv {

  datatype Result<T, E> = Success(value: T) | Failure(error: E)

  /** The environment handed to the west tool. */
  type Env = map<string, string>

  /** `dict()`'s ValueError: update sequence element `index` has `length`
      parts where 2 are required. */
  datatype EnvError = NotAPair(index: nat, length: nat)

  /** Python's `str.split(sep)` with an explicit separator: empty parts are
      kept, so there is always one more part than separators. */
  function Split(s: string, sep: char): (parts: seq<string>)
    ensures |parts| >= 1
    ensures forall i :: 0 <= i < |parts| ==> sep !in parts[i]
    decreases |s|
  {
    if s == [] then [""]
    else
      var rest := Split(s[1..], sep);
      if s[0] == sep then [""] + rest
      else [[s[0]] + rest[0]] + rest[1..]
  }

  /** There is one more part than there are separators. */
  lemma {:induction false} SplitCount(s: string, sep: char)
    ensures |Split(s, sep)| == multiset(s)[sep] + 1
    decreases |s|
  {
    if s != [] {
      SplitCount(s[1..], sep);
      assert s == [s[0]] + s[1..];
    }
  }

  /** `sep.join(parts)`. */
  function Join(parts: seq<string>, sep: char): string
    requires parts != []
    decreases |parts|
  {
    if |parts| == 1 then parts[0] else parts[0] + [sep] + Join(parts[1..], sep)
  }

  /** Prefixing a character to the first part prefixes it to the join. */
  lemma JoinCons(c: char, parts: seq<string>, sep: char)
    requires parts != []
    ensures Join([[c] + parts[0]] + parts[1..], sep) == [c] + Join(parts, sep)
  {
    var q := [[c] + parts[0]] + parts[1..];
    assert q[0] == [c] + parts[0] && q[1..] == parts[1..];
  }

  lemma {:induction false} JoinSplit(s: string, sep: char)
    ensures Join(Split(s, sep), sep) == s
    decreases |s|
  {
    if s != [] {
      var rest := Split(s[1..], sep);
      JoinSplit(s[1..], sep);
      assert s == [s[0]] + s[1..];
      if s[0] == sep {
        assert ([""] + rest)[1..] == rest;
      } else {
        JoinCons(s[0], rest, sep);
      }
    }
  }

  /** A separator-free word splits to itself. */
  lemma {:induction false} SplitWord(w: string, sep: char)
    requires sep !in w
    ensures Split(w, sep) == [w]
    decreases |w|
  {
    if w != [] {
      SplitWord(w[1..], sep);
      assert [w[0]] + w[1..] == w;
    }
  }

  lemma {:induction false} SplitJoin(parts: seq<string>, sep: char)
    requires parts != []
    requires forall i :: 0 <= i < |parts| ==> sep !in parts[i]
    ensures Split(Join(parts, sep), sep) == parts
    decreases |parts|
  {
    if |parts| == 1 {
      SplitWord(parts[0], sep);
    } else {
      SplitJoin(parts[1..], sep);
      SplitAround(parts[0], sep, Join(parts[1..], sep));
      SplitWord(parts[0], sep);
      assert [parts[0]] + parts[1..] == parts;
    }
  }

  /** The list comprehension: every space-separated token split on `=`. */
  function Pairs(text: string): (pairs: seq<seq<string>>)
    ensures |pairs| == |Split(text, ' ')|
  {
    var tokens := Split(text, ' ');
    seq(|tokens|, i requires 0 <= i < |tokens| => Split(tokens[i], '='))
  }

  /** `dict(pairs)`, continued from element `i` with the entries so far in
      `acc`. */
  function DictFrom(pairs: seq<seq<string>>, i: nat, acc: Env): (r: Result<Env, EnvError>)
    requires i <= |pairs|
    ensures r.Success? ==> acc.Keys <= r.value.Keys
    ensures r.Failure? ==>
      i <= r.error.index < |pairs| && r.error.length == |pairs[r.error.index]| != 2
    decreases |pairs| - i
  {
    if i == |pairs| then Success(acc)
    else if |pairs[i]| != 2 then Failure(NotAPair(i, |pairs[i]|))
    else DictFrom(pairs, i + 1, acc[pairs[i][0] := pairs[i][1]])
  }

  /** `dict([x.split("=") for x in text.split(" ")])`. */
  function ParseEnv(text: string): (r: Result<Env, EnvError>)
    ensures r.Failure? ==> r.error.index < |Split(text, ' ')| && r.error.length != 2
  {
    DictFrom(Pairs(text), 0, map[])
  }

  predicate AllPairs(pairs: seq<seq<string>>, from: nat, to: nat)
    requires from <= to <= |pairs|
  {
    forall j :: from <= j < to ==> |pairs[j]| == 2
  }

  lemma {:induction false} DictFromOutcome(pairs: seq<seq<string>>, i: nat, acc: Env)
    requires i <= |pairs|
    ensures DictFrom(pairs, i, acc).Success? <==> AllPairs(pairs, i, |pairs|)
    ensures DictFrom(pairs, i, acc).Failure? ==>
      var e := DictFrom(pairs, i, acc).error;
      i <= e.index < |pairs| && AllPairs(pairs, i, e.index)
      && e.length == |pairs[e.index]| != 2
    decreases |pairs| - i
  {
    if i < |pairs| && |pairs[i]| == 2 {
      DictFromOutcome(pairs, i + 1, acc[pairs[i][0] := pairs[i][1]]);
    }
  }

  /** `k` is the key of pair `j` and of no later pair. */
  predicate LastWith(pairs: seq<seq<string>>, j: nat, k: string)
    requires j < |pairs| && AllPairs(pairs, 0, |pairs|)
  {
    pairs[j][0] == k && forall l :: j < l < |pairs| ==> pairs[l][0] != k
  }

  lemma {:induction false} DictFromLastWins(pairs: seq<seq<string>>, i: nat, acc: Env)
    requires i <= |pairs| && AllPairs(pairs, 0, |pairs|)
    ensures DictFrom(pairs, i, acc).Success?
    ensures var env := DictFrom(pairs, i, acc).value;
      && (forall k :: k in env <==> k in acc || exists j :: i <= j < |pairs| && pairs[j][0] == k)
      && (forall j :: i <= j < |pairs| && LastWith(pairs, j, pairs[j][0]) ==>
            env[pairs[j][0]] == pairs[j][1])
      && (forall k :: k in acc && (forall j :: i <= j < |pairs| ==> pairs[j][0] != k) ==>
            env[k] == acc[k])
    decreases |pairs| - i
  {
    if i < |pairs| {
      DictFromLastWins(pairs, i + 1, acc[pairs[i][0] := pairs[i][1]]);
    }
  }

  /** Parsing succeeds exactly when every space-separated token holds exactly
      one `=`; an empty token (an empty string, a double space) or a token
      with no or several `=` makes it fail, at the first such token. */
  lemma ParseEnvFails(text: string)
    ensures var tokens := Split(text, ' ');
      && (ParseEnv(text).Success? <==>
            forall i :: 0 <= i < |tokens| ==> multiset(tokens[i])['='] == 1)
      && (ParseEnv(text).Failure? ==>
            var e := ParseEnv(text).error;
            && e.index < |tokens|
            && multiset(tokens[e.index])['='] != 1
            && e.length == multiset(tokens[e.index])['='] + 1
            && forall j :: 0 <= j < e.index ==> multiset(tokens[j])['='] == 1)
  {
    var tokens, pairs := Split(text, ' '), Pairs(text);
    DictFromOutcome(pairs, 0, map[]);
    forall i | 0 <= i < |tokens|
      ensures pairs[i] == Split(tokens[i], '=')
      ensures |pairs[i]| == multiset(tokens[i])['='] + 1
    {
      SplitCount(tokens[i], '=');
    }
  }

  /** On success every key of a token is present, nothing else is, and each
      key maps to the value of its last token. */
  lemma ParseEnvLastWins(text: string)
    requires ParseEnv(text).Success?
    ensures var tokens, env := Split(text, ' '), ParseEnv(text).value;
      && (forall k :: k in env <==> exists j :: 0 <= j < |tokens| && Split(tokens[j], '=')[0] == k)
      && (forall j :: 0 <= j < |tokens| ==>
            var kv := Split(tokens[j], '=');
            (forall l :: j < l < |tokens| ==> Split(tokens[l], '=')[0] != kv[0]) ==>
              |kv| == 2 && env[kv[0]] == kv[1])
  {
    var tokens, pairs := Split(text, ' '), Pairs(text);
    var env := ParseEnv(text).value;
    PairsLastWins(pairs, env);
    assert forall i :: 0 <= i < |tokens| ==> pairs[i] == Split(tokens[i], '=');
  }

  /** `ParseEnvLastWins` stated over the pairs. */
  lemma PairsLastWins(pairs: seq<seq<string>>, env: Env)
    requires DictFrom(pairs, 0, map[]) == Success(env)
    ensures AllPairs(pairs, 0, |pairs|)
    ensures forall k :: k in env <==> exists j :: 0 <= j < |pairs| && pairs[j][0] == k
    ensures forall j :: 0 <= j < |pairs| ==>
      (forall l :: j < l < |pairs| ==> pairs[l][0] != pairs[j][0]) ==> env[pairs[j][0]] == pairs[j][1]
  {
    DictFromOutcome(pairs, 0, map[]);
    DictFromLastWins(pairs, 0, map[]);
    forall j | 0 <= j < |pairs| && (forall l :: j < l < |pairs| ==> pairs[l][0] != pairs[j][0])
      ensures env[pairs[j][0]] == pairs[j][1]
    {
      assert LastWith(pairs, j, pairs[j][0]);
    }
  }

  /** An empty `--west-env` does not parse: it is one empty token. */
  lemma ParseEnvEmpty()
    ensures ParseEnv("") == Failure(NotAPair(0, 1))
  {
    assert Split("", ' ') == [""];
    assert Pairs("") == [[""]];
  }

  /** Splitting around one separator splits each side separately. */
  lemma {:induction false} SplitAround(a: string, sep: char, b: string)
    ensures Split(a + [sep] + b, sep) == Split(a, sep) + Split(b, sep)
    decreases |a|
  {
    if a == [] {
      assert a + [sep] + b == [sep] + b;
      assert ([sep] + b)[1..] == b;
    } else {
      var s := a + [sep] + b;
      assert s[1..] == a[1..] + [sep] + b;
      SplitAround(a[1..], sep, b);
    }
  }

  /** Neither does one with a double space anywhere: the empty token between
      the two spaces has no `=`. */
  lemma ParseEnvDoubleSpace(before: string, after: string)
    ensures ParseEnv(before + "  " + after).Failure?
  {
    var text := before + "  " + after;
    assert text == before + [' '] + ([' '] + after);
    assert [' '] + after == "" + [' '] + after;
    SplitAround(before, ' ', [' '] + after);
    SplitAround("", ' ', after);
    var tokens := Split(text, ' ');
    var k := |Split(before, ' ')|;
    assert tokens[k] == "";
    ParseEnvFails(text);
  }
}
