/** The bad-word mask (NoBadWordsLogitsProcessor in vllm/logits_process.py). */
module BadWords {
  import opened Prelude

  /** A logit: minus infinity or finite. */
  datatype Logit = NegInf | Fin(value: real)

  function Add(x: Logit, y: Logit): Logit {
    if x.NegInf? || y.NegInf? then NegInf else Fin(x.value + y.value)
  }

  datatype Result = Ok(logits: seq<Logit>) | ValueError | IndexError

  ghost predicate EndsWith(xs: seq<int>, w: seq<int>) {
    |w| <= |xs| && xs[|xs| - |w|..] == w
  }

  /** Token `t` after `past` would complete word `w`. */
  ghost predicate Completes(w: seq<int>, past: seq<int>, t: int) {
    w != [] && EndsWith(past + [t], w)
  }

  ghost predicate CompletesSome(words: seq<seq<int>>, past: seq<int>, t: int) {
    exists k | 0 <= k < |words| :: Completes(words[k], past, t)
  }

  ghost predicate InBounds(words: seq<seq<int>>, vocab: nat) {
    forall k | 0 <= k < |words| :: WordInBounds(words[k], vocab)
  }

  ghost predicate WordInBounds(w: seq<int>, vocab: nat) { forall i | 0 <= i < |w| :: 0 <= w[i] < vocab }

  /** A word of one token is completed by that token, whatever came before. */
  lemma OneToken(w: seq<int>, past: seq<int>, t: int)
    requires |w| == 1
    ensures Completes(w, past, t) <==> t == w[0]
  {
    assert (past + [t])[|past|..] == [t];
  }

  /** A longer word is completed by its last token after its other tokens. */
  lemma LongerWord(w: seq<int>, past: seq<int>, t: int)
    requires |w| > 1
    ensures Completes(w, past, t) <==> |w| <= |past| + 1 && t == w[|w| - 1] && past[|past| + 1 - |w|..] == w[..|w| - 1]
  {
    if |w| <= |past| + 1 {
      var tail := (past + [t])[|past| + 1 - |w|..];
      assert tail == past[|past| + 1 - |w|..] + [t];
      assert w == w[..|w| - 1] + [w[|w| - 1]];
      assert tail[..|w| - 1] == past[|past| + 1 - |w|..] && tail[|w| - 1] == t;
    }
  }

  /** One of the first `upto` words, of one token or of more, would be completed. */
  ghost predicate Hit(words: seq<seq<int>>, past: seq<int>, oneToken: bool, upto: nat, t: int)
    requires upto <= |words|
  {
    exists k | 0 <= k < upto :: (|words[k]| == 1) == oneToken && Completes(words[k], past, t)
  }

  /** Minus infinity where one is, zero elsewhere. */
  ghost predicate Masks(bias: seq<Logit>, words: seq<seq<int>>, past: seq<int>, oneToken: bool, upto: nat)
    requires upto <= |words|
  {
    forall t | 0 <= t < |bias| :: bias[t] == if Hit(words, past, oneToken, upto, t) then NegInf else Fin(0.0)
  }

  lemma HitNext(words: seq<seq<int>>, past: seq<int>, oneToken: bool, k: nat, t: int)
    requires k < |words|
    ensures Hit(words, past, oneToken, k + 1, t)
            <==> Hit(words, past, oneToken, k, t) || ((|words[k]| == 1) == oneToken && Completes(words[k], past, t))
  {
  }

  /** A word of the other kind, or one too long to be completed, adds nothing. */
  lemma WordSkipped(bias: seq<Logit>, words: seq<seq<int>>, past: seq<int>, oneToken: bool, k: nat)
    requires k < |words| && Masks(bias, words, past, oneToken, k)
    requires (|words[k]| == 1) != oneToken || |words[k]| > |past| + 1 || words[k] == []
    ensures Masks(bias, words, past, oneToken, k + 1)
  {
    forall t | 0 <= t < |bias| ensures bias[t] == if Hit(words, past, oneToken, k + 1, t) then NegInf else Fin(0.0) {
      HitNext(words, past, oneToken, k, t);
    }
  }

  /** Any other word masks its last token when its other tokens have just been generated. */
  lemma WordMasked(bias: seq<Logit>, words: seq<seq<int>>, past: seq<int>, oneToken: bool, k: nat, last: int,
                   isMatch: bool, cell: Logit)
    requires k < |words| && Masks(bias, words, past, oneToken, k) && (|words[k]| == 1) == oneToken && 0 <= last < |bias|
    requires cell == if isMatch then NegInf else bias[last]
    requires forall t :: Completes(words[k], past, t) <==> t == last && isMatch
    ensures Masks(bias[last := cell], words, past, oneToken, k + 1)
  {
    var before := (t: int) => Hit(words, past, oneToken, k, t);
    var after := (t: int) => Hit(words, past, oneToken, k + 1, t);
    forall t ensures after(t) <==> before(t) || (t == last && isMatch) { HitNext(words, past, oneToken, k, t); }
    CellMasked(bias, before, after, last, isMatch, cell);
  }

  /** Adding minus infinity on a match, and nothing otherwise. */
  method Penalised(x: Logit, isMatch: bool) returns (y: Logit)
    ensures y == if isMatch then NegInf else x
  {
    y := Add(x, if isMatch then NegInf else Fin(0.0));
  }

  lemma CellMasked(bias: seq<Logit>, before: int -> bool, after: int -> bool, last: int, isMatch: bool, cell: Logit)
    requires 0 <= last < |bias| && forall t :: after(t) <==> before(t) || (t == last && isMatch)
    requires forall t | 0 <= t < |bias| :: bias[t] == if before(t) then NegInf else Fin(0.0)
    requires cell == if isMatch then NegInf else bias[last]
    ensures var bias' := bias[last := cell];
            forall t | 0 <= t < |bias'| :: bias'[t] == if after(t) then NegInf else Fin(0.0)
  {
  }

  class NoBadWords {
    const badWords: seq<seq<int>>
    var wordBias: Option<seq<Logit>>

    constructor (badWords: seq<seq<int>>)
      ensures this.badWords == badWords && wordBias == None
    {
      this.badWords, wordBias := badWords, None;
    }

    /** Once set, the word bias masks the one-token words of a vocabulary they all lie in. */
    ghost predicate Valid()
      reads this
    {
      wordBias.Some? ==> InBounds(badWords, |wordBias.value|) && Masks(wordBias.value, badWords, [], true, |badWords|)
    }

    method CheckBounds(vocab: nat) returns (ok: bool)
      ensures ok <==> InBounds(badWords, vocab)
    {
      var invalid: seq<int> := [];
      for k := 0 to |badWords|
        invariant invalid == [] <==> forall j | 0 <= j < k :: WordInBounds(badWords[j], vocab)
      {
        var w := badWords[k];
        ghost var before := invalid;
        for i := 0 to |w|
          invariant invalid == [] <==> before == [] && forall j | 0 <= j < i :: 0 <= w[j] < vocab
        {
          if w[i] < 0 || w[i] >= vocab {
            invalid := invalid + [w[i]];
          }
        }
      }
      ok := |invalid| == 0;
    }

    method InitWordBias(vocab: nat) returns (ok: bool)
      requires Valid() && wordBias.None?
      modifies this
      ensures Valid() && (ok <==> InBounds(badWords, vocab))
      ensures if ok then wordBias.Some? && |wordBias.value| == vocab else wordBias.None?
    {
      ok := CheckBounds(vocab);
      if !ok {
        return;
      }
      var bias := seq(vocab, t => Fin(0.0));
      for k := 0 to |badWords|
        invariant |bias| == vocab && Masks(bias, badWords, [], true, k)
      {
        var w := badWords[k];
        assert WordInBounds(w, vocab);
        if |w| == 1 {
          forall t ensures Completes(w, [], t) <==> t == w[0] { OneToken(w, [], t); }
          WordMasked(bias, badWords, [], true, k, w[0], true, NegInf);
          bias := bias[w[0] := NegInf];
        } else {
          WordSkipped(bias, badWords, [], true, k);
        }
      }
      wordBias := Some(bias);
    }

    /** The bias against longer words; it fails on an empty word. */
    method LastTokenBias(past: seq<int>, vocab: nat) returns (ok: bool, bias: seq<Logit>)
      requires InBounds(badWords, vocab)
      ensures ok <==> [] !in badWords
      ensures ok ==> |bias| == vocab && Masks(bias, badWords, past, false, |badWords|)
    {
      ok, bias := true, seq(vocab, t => Fin(0.0));
      for k := 0 to |badWords|
        invariant |bias| == vocab && Masks(bias, badWords, past, false, k)
        invariant ok && forall j | 0 <= j < k :: badWords[j] != []
      {
        var w := badWords[k];
        assert WordInBounds(w, vocab);
        if |w| == 1 {
          WordSkipped(bias, badWords, past, false, k);
          continue;
        }
        if |w| > |past| + 1 {
          WordSkipped(bias, badWords, past, false, k);
          continue;
        }
        if |w| == 0 {
          ok := false;
          return;
        }
        var prefixLength := |w| - 1;
        var isMatch := past[|past| - prefixLength..] == w[..prefixLength];
        var last := w[|w| - 1];
        forall t ensures Completes(w, past, t) <==> t == last && isMatch { LongerWord(w, past, t); }
        var cell := Penalised(bias[last], isMatch);
        WordMasked(bias, badWords, past, false, k, last, isMatch, cell);
        bias := bias[last := cell];
      }
    }

    /** The mask for the tokens so far: exactly the tokens that would complete a bad word are masked,
        and every other logit is as it was. */
    method Call(past: seq<int>, logits: seq<Logit>) returns (r: Result)
      requires Valid() && (wordBias.Some? ==> |wordBias.value| == |logits|)
      modifies this
      ensures Valid() && (wordBias.Some? ==> |wordBias.value| == |logits|)
      ensures r.ValueError? <==> !InBounds(badWords, |logits|)
      ensures r.IndexError? <==> InBounds(badWords, |logits|) && [] in badWords
      ensures r.Ok? ==> |r.logits| == |logits| && forall t | 0 <= t < |logits| ::
                          r.logits[t] == if CompletesSome(badWords, past, t) then NegInf else logits[t]
    {
      if wordBias.None? {
        var inBounds := InitWordBias(|logits|);
        if !inBounds {
          return ValueError;
        }
      }
      var ok, lastTokenBias := LastTokenBias(past, |logits|);
      if !ok {
        return IndexError;
      }
      var bias := wordBias.value;
      var sum := seq(|logits|, t requires 0 <= t < |logits| => Add(Add(logits[t], bias[t]), lastTokenBias[t]));
      MasksTogether(logits, bias, lastTokenBias, badWords, past);
      r := Ok(sum);
    }
  }

  /** One-token words do not depend on the past, so the two masks together are all words'. */
  lemma MasksTogether(logits: seq<Logit>, word: seq<Logit>, last: seq<Logit>, words: seq<seq<int>>, past: seq<int>)
    requires |logits| == |word| == |last| && Masks(word, words, [], true, |words|)
             && Masks(last, words, past, false, |words|)
    ensures forall t | 0 <= t < |logits| ::
              Add(Add(logits[t], word[t]), last[t]) == if CompletesSome(words, past, t) then NegInf else logits[t]
  {
    forall t | 0 <= t < |logits|
      ensures Add(Add(logits[t], word[t]), last[t]) == if CompletesSome(words, past, t) then NegInf else logits[t]
    {
      EitherHit(words, past, t);
      assert word[t] == if Hit(words, [], true, |words|, t) then NegInf else Fin(0.0);
      assert last[t] == if Hit(words, past, false, |words|, t) then NegInf else Fin(0.0);
    }
  }

  lemma EitherHit(words: seq<seq<int>>, past: seq<int>, t: int)
    ensures CompletesSome(words, past, t) <==> Hit(words, [], true, |words|, t) || Hit(words, past, false, |words|, t)
  {
    forall k | 0 <= k < |words| && |words[k]| == 1
      ensures Completes(words[k], [], t) <==> Completes(words[k], past, t)
    {
      OneToken(words[k], [], t);
      OneToken(words[k], past, t);
    }
  }

  // ----- Whole runs

  /** Word `w` stands in the tokens at `i`. */
  ghost predicate OccursAt(w: seq<int>, tokens: seq<int>, i: nat) {
    i + |w| <= |tokens| && tokens[i..i + |w|] == w
  }

  ghost predicate Occurs(w: seq<int>, tokens: seq<int>) { w != [] && exists i: nat :: OccursAt(w, tokens, i) }

  ghost predicate Clean(words: seq<seq<int>>, tokens: seq<int>) {
    forall k | 0 <= k < |words| :: !Occurs(words[k], tokens)
  }

  /** Every token was one that the mask let through. */
  ghost predicate Unmasked(words: seq<seq<int>>, tokens: seq<int>) {
    forall n | 0 <= n < |tokens| :: !CompletesSome(words, tokens[..n], tokens[n])
  }

  lemma OccursWhereCompleted(w: seq<int>, tokens: seq<int>, i: nat)
    requires w != [] && i + |w| <= |tokens|
    ensures OccursAt(w, tokens, i) <==> Completes(w, tokens[..i + |w| - 1], tokens[i + |w| - 1])
  {
    var n := i + |w| - 1;
    assert tokens[..n] + [tokens[n]] == tokens[..n + 1];
    assert tokens[..n + 1][i..] == tokens[i..i + |w|];
  }

  /** A run is unmasked exactly when no bad word occurs in it. */
  lemma UnmaskedIsClean(words: seq<seq<int>>, tokens: seq<int>)
    ensures Unmasked(words, tokens) <==> Clean(words, tokens)
  {
    if Unmasked(words, tokens) {
      forall k, i: nat | 0 <= k < |words| && words[k] != [] && i + |words[k]| <= |tokens|
        ensures !OccursAt(words[k], tokens, i)
      {
        OccursWhereCompleted(words[k], tokens, i);
        assert !CompletesSome(words, tokens[..i + |words[k]| - 1], tokens[i + |words[k]| - 1]);
      }
    }
    if Clean(words, tokens) {
      forall n, k | 0 <= n < |tokens| && 0 <= k < |words| ensures !Completes(words[k], tokens[..n], tokens[n]) {
        if words[k] != [] && |words[k]| <= n + 1 { OccursWhereCompleted(words[k], tokens, n + 1 - |words[k]|); }
      }
    }
  }

  /** Generation that never picks a masked token: one row of logits per step, any choice among the
      tokens left, stopping when none is. */
  method Generate(words: seq<seq<int>>, rows: seq<seq<Logit>>, vocab: nat) returns (tokens: seq<int>)
    requires InBounds(words, vocab) && [] !in words && forall n | 0 <= n < |rows| :: |rows[n]| == vocab
    ensures Clean(words, tokens) && |tokens| <= |rows|
    ensures forall n | 0 <= n < |tokens| :: 0 <= tokens[n] < vocab && rows[n][tokens[n]] != NegInf
    ensures |tokens| < |rows| ==>
              forall t | 0 <= t < vocab :: rows[|tokens|][t] == NegInf || CompletesSome(words, tokens, t)
  {
    var processor := new NoBadWords(words);
    tokens := [];
    for n := 0 to |rows|
      invariant processor.badWords == words && processor.Valid()
                && (processor.wordBias.Some? ==> |processor.wordBias.value| == vocab)
      invariant Unmasked(words, tokens) && |tokens| == n
      invariant forall k | 0 <= k < n :: 0 <= tokens[k] < vocab && rows[k][tokens[k]] != NegInf
    {
      var r := processor.Call(tokens, rows[n]);
      if !exists t | 0 <= t < |r.logits| :: r.logits[t] != NegInf {
        break;
      }
      var t :| 0 <= t < |r.logits| && r.logits[t] != NegInf;
      UnmaskedGrows(words, tokens, t);
      tokens := tokens + [t];
    }
    UnmaskedIsClean(words, tokens);
  }

  lemma UnmaskedGrows(words: seq<seq<int>>, tokens: seq<int>, t: int)
    requires Unmasked(words, tokens) && !CompletesSome(words, tokens, t)
    ensures Unmasked(words, tokens + [t])
  {
    forall n | 0 <= n < |tokens| + 1 ensures !CompletesSome(words, (tokens + [t])[..n], (tokens + [t])[n]) {
      assert (tokens + [t])[..n] == tokens[..n];
      assert n == |tokens| ==> tokens[..n] == tokens;
    }
  }
}
