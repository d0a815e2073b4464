/**
 * Batching of embedding inputs (packages/cardano-agent/src/llm/embeddingClient.ts:48-74 and 124-130).
 *
 * `respond` stands for one request: None when it fails or its response is malformed, else one
 * embedding for each input of the batch.
 */
module EmbeddingBatches {
  import opened Wrappers

  const MAX_INPUTS_PER_REQUEST := 64
  const MAX_INPUT_CHARS_PER_REQUEST := 100000
  const MAX_INPUT_CHARS := 100000

  datatype Embedded<V> = Embedded(index: nat, embedding: V)

  function Chars(input: seq<string>, from: nat, to: nat): nat
    requires from <= to <= |input|
  {
    if from == to then 0 else Chars(input, from, to - 1) + |input[to - 1]|
  }

  // May these inputs share a request?
  predicate Fits(input: seq<string>, from: nat, to: nat) {
    from < to <= |input| && to - from <= MAX_INPUTS_PER_REQUEST && Chars(input, from, to) <= MAX_INPUT_CHARS_PER_REQUEST
  }

  // A division of the inputs behind `from` into requests, by the offsets where they end.
  predicate IsDivision(input: seq<string>, from: nat, ends: seq<nat>)
    decreases |ends|
  {
    if |ends| == 0 then from == |input| else Fits(input, from, ends[0]) && IsDivision(input, ends[0], ends[1..])
  }

  predicate IsValidInput(input: seq<string>, isBlank: string -> bool) {
    |input| > 0 && forall i | 0 <= i < |input| :: !isBlank(input[i]) && |input[i]| <= MAX_INPUT_CHARS
  }

  method ValidateInput(input: seq<string>, isBlank: string -> bool) returns (ok: bool)
    ensures ok <==> IsValidInput(input, isBlank)
  {
    if |input| == 0 { return false; }
    for i := 0 to |input|
      invariant forall k | 0 <= k < i :: !isBlank(input[k]) && |input[k]| <= MAX_INPUT_CHARS
    {
      if isBlank(input[i]) { return false; }
      if |input[i]| > MAX_INPUT_CHARS { return false; }
    }
    return true;
  }

  // The batches sent, by their ends, and the embeddings of all of them in the order of the inputs:
  // the one at position i is what the request holding input i answered for it.
  ghost predicate Answers<V>(input: seq<string>, respond: seq<string> -> Option<seq<V>>, from: nat, ends: seq<nat>,
                             output: seq<Embedded<V>>)
    decreases |ends|
  {
    if |ends| == 0 then output == []
    else
      && from < ends[0] <= |input| && ends[0] - from <= |output|
      && respond(input[from..ends[0]]).Some? && |respond(input[from..ends[0]]).value| == ends[0] - from
      && (forall i | 0 <= i < ends[0] - from ::
            output[i] == Embedded(from + i, respond(input[from..ends[0]]).value[i]))
      && Answers(input, respond, ends[0], ends[1..], output[ends[0] - from..])
  }

  // A batch whose request fails or answers with another number of embeddings.
  predicate IsRefused<V>(input: seq<string>, respond: seq<string> -> Option<seq<V>>, from: nat, to: nat) {
    Fits(input, from, to) && (respond(input[from..to]).None? || |respond(input[from..to]).value| != to - from)
  }

  // A batch cannot take the next input too.
  predicate IsFull(input: seq<string>, from: nat, to: nat) {
    from <= to <= |input| && (to < |input| ==> !Fits(input, from, to + 1))
  }

  predicate AllFull(input: seq<string>, from: nat, ends: seq<nat>)
    decreases |ends|
  {
    |ends| > 0 ==> IsFull(input, from, ends[0]) && AllFull(input, ends[0], ends[1..])
  }

  method Embed<V>(input: seq<string>, isBlank: string -> bool, respond: seq<string> -> Option<seq<V>>)
    returns (r: Result<seq<Embedded<V>>>, ends: seq<nat>)
    ensures r.Ok? ==> IsValidInput(input, isBlank) && IsDivision(input, 0, ends) && AllFull(input, 0, ends)
    ensures r.Ok? ==> Answers(input, respond, 0, ends, r.value)
    ensures r.Thrown? ==> !IsValidInput(input, isBlank) || exists from, to :: IsRefused(input, respond, from, to)
    ensures r.Ok? ==> |r.value| == |input| && forall i | 0 <= i < |input| :: r.value[i].index == i
  {
    hide IsDivision, AllFull, Answers, Fits;
    ends := [];
    var valid := ValidateInput(input, isBlank);
    if !valid { return Thrown, ends; }
    var output: seq<Embedded<V>> := [];
    var start := 0;
    assert forall rest: seq<nat> :: ends + rest == rest;
    assert forall more: seq<Embedded<V>> :: output + more == more;
    while start < |input|
      invariant 0 <= start <= |input| && |output| == start && (forall i | 0 <= i < start :: output[i].index == i)
      invariant forall rest | IsDivision(input, start, rest) && AllFull(input, start, rest) ::
                  IsDivision(input, 0, ends + rest) && AllFull(input, 0, ends + rest)
      invariant forall rest, more | Answers(input, respond, start, rest, more) ::
                Answers(input, respond, 0, ends + rest, output + more)
    {
      var size, characters := 0, 0;
      while start + size < |input| && size < MAX_INPUTS_PER_REQUEST
        invariant 0 <= size <= MAX_INPUTS_PER_REQUEST && start + size <= |input|
        invariant characters == Chars(input, start, start + size)
        invariant size > 0 ==> characters <= MAX_INPUT_CHARS_PER_REQUEST
      {
        var value := input[start + size];
        if size > 0 && characters + |value| > MAX_INPUT_CHARS_PER_REQUEST { break; }
        size := size + 1;
        characters := characters + |value|;
      }
      var end := start + size;
      BatchIsFull(input, start, end);
      var embeddings := respond(input[start..end]);
      if embeddings.None? || |embeddings.value| != size {
        assert IsRefused(input, respond, start, end);
        return Thrown, ends;
      }
      var items := seq(size, i requires 0 <= i < size => Embedded(start + i, embeddings.value[i]));
      Extended(input, respond, start, end, items, ends, output);
      output := output + items;
      ends := ends + [end];
      start := end;
    }
    assert ends + [] == ends;
    ghost var none: seq<Embedded<V>> := [];
    NothingLeft(input, respond, none);
    assert output + none == output;
    return Ok(output), ends;
  }

  lemma {:induction false} BatchIsFull(input: seq<string>, start: nat, end: nat)
    requires start < end <= |input| && end - start <= MAX_INPUTS_PER_REQUEST
             && Chars(input, start, end) <= MAX_INPUT_CHARS_PER_REQUEST
    requires end < |input| ==>
             end - start == MAX_INPUTS_PER_REQUEST
                 || Chars(input, start, end) + |input[end]| > MAX_INPUT_CHARS_PER_REQUEST
    ensures Fits(input, start, end) && IsFull(input, start, end)
  {
  }

  lemma {:induction false} NothingLeft<V>(input: seq<string>, respond: seq<string> -> Option<seq<V>>,
                                          none: seq<Embedded<V>>)
    requires none == []
    ensures IsDivision(input, |input|, []) && AllFull(input, |input|, []) && Answers(input, respond, |input|, [], none)
  {
  }

  // One more batch behind those already sent.
  lemma {:induction false} Extended<V>(input: seq<string>, respond: seq<string> -> Option<seq<V>>, start: nat,
                                       end: nat, items: seq<Embedded<V>>,
                                       ends: seq<nat>, output: seq<Embedded<V>>)
    requires start < end <= |input| && Fits(input, start, end) && IsFull(input, start, end) && |items| == end - start
    requires respond(input[start..end]).Some? && |respond(input[start..end]).value| == end - start
    requires forall i | 0 <= i < end - start :: items[i] == Embedded(start + i, respond(input[start..end]).value[i])
    requires forall rest | IsDivision(input, start, rest) && AllFull(input, start, rest) ::
               IsDivision(input, 0, ends + rest) && AllFull(input, 0, ends + rest)
    requires forall rest, more | Answers(input, respond, start, rest, more) ::
             Answers(input, respond, 0, ends + rest, output + more)
    ensures forall rest | IsDivision(input, end, rest) && AllFull(input, end, rest) ::
              IsDivision(input, 0, ends + [end] + rest) && AllFull(input, 0, ends + [end] + rest)
    ensures forall rest, more | Answers(input, respond, end, rest, more) ::
            Answers(input, respond, 0, ends + [end] + rest, output + items + more)
  {
    forall rest | IsDivision(input, end, rest) && AllFull(input, end, rest)
      ensures IsDivision(input, 0, ends + [end] + rest) && AllFull(input, 0, ends + [end] + rest)
    {
      assert ([end] + rest)[1..] == rest;
      assert IsDivision(input, start, [end] + rest) && AllFull(input, start, [end] + rest);
      assert ends + [end] + rest == ends + ([end] + rest);
    }
    forall rest, more | Answers(input, respond, end, rest, more)
      ensures Answers(input, respond, 0, ends + [end] + rest, output + items + more)
    {
      assert ([end] + rest)[1..] == rest && (items + more)[end - start..] == more;
      assert Answers(input, respond, start, [end] + rest, items + more);
      assert ends + [end] + rest == ends + ([end] + rest) && output + items + more == output + (items + more);
    }
  }

  // ---------------------------------------------------------------- no division is shorter

  lemma {:induction false} CharsGrow(input: seq<string>, a: nat, from: nat, to: nat, b: nat)
    requires a <= from <= to <= b <= |input|
    ensures Chars(input, from, to) <= Chars(input, a, b)
    decreases b - to, to - from
  {
    if to < b {
      CharsGrow(input, a, from, to, b - 1);
    } else if from < to {
      CharsGrow(input, a, from, to - 1, b - 1);
    }
  }

  // A full batch from a later start ends no earlier than any batch from an earlier one.
  lemma {:induction false} FullReaches(input: seq<string>, a: nat, e: nat, start: nat, end: nat)
    requires Fits(input, a, e) && a <= start < e && Fits(input, start, end) && IsFull(input, start, end)
    ensures e <= end
  {
    if end < e { CharsGrow(input, a, start, end + 1, e); }
  }

  // No division of the same or a larger rest uses fewer requests than the full batches do.
  lemma {:induction false} FullIsShortest(input: seq<string>, start: nat, ends: seq<nat>, from: nat, other: seq<nat>)
    requires IsDivision(input, start, ends) && AllFull(input, start, ends) && IsDivision(input, from, other)
             && from <= start <= |input|
    ensures |ends| <= |other|
    decreases |other|
  {
    if |ends| > 0 {
      DivisionEnds(input, from, other);
      if other[0] <= start {
        FullIsShortest(input, start, ends, other[0], other[1..]);
      } else {
        FullReaches(input, from, other[0], start, ends[0]);
        FullIsShortest(input, ends[0], ends[1..], other[0], other[1..]);
      }
    }
  }

  lemma {:induction false} DivisionEnds(input: seq<string>, from: nat, ends: seq<nat>)
    requires IsDivision(input, from, ends)
    ensures |ends| == 0 ==> from == |input|
  {
  }

  // So embedding the inputs takes as few requests as the limits allow.
  lemma {:induction false} EmbedUsesFewestRequests(input: seq<string>, ends: seq<nat>, other: seq<nat>)
    requires IsDivision(input, 0, ends) && AllFull(input, 0, ends) && IsDivision(input, 0, other)
    ensures |ends| <= |other|
  {
    FullIsShortest(input, 0, ends, 0, other);
  }

  // The batches of a division put together are the inputs.
  function Joined(input: seq<string>, from: nat, ends: seq<nat>): seq<string>
    requires IsDivision(input, from, ends)
    decreases |ends|
  {
    if |ends| == 0 then [] else input[from..ends[0]] + Joined(input, ends[0], ends[1..])
  }

  lemma {:induction false} DivisionsJoin(input: seq<string>, from: nat, ends: seq<nat>)
    requires IsDivision(input, from, ends) && from <= |input|
    ensures Joined(input, from, ends) == input[from..]
    decreases |ends|
  {
    if |ends| > 0 { DivisionsJoin(input, ends[0], ends[1..]); }
  }
}
