/**
 * The log folds: `replyText` (e2e/harness.e2e.ts:166-176) and `starts`
 * (e2e/conversation-initiative.e2e.ts:47-58), both over a map that lists keys by first insertion.
 */
module OrderedMaps {
  /** A JavaScript Map: setting an existing key keeps its place. */
  datatype Ordered<V> = Ordered(keys: seq<string>, values: map<string, V>) {
    ghost predicate Valid() {
      (forall k :: k in keys <==> k in values) && forall i, j :: 0 <= i < j < |keys| ==> keys[i] != keys[j]
    }
  }

  function Empty<V>(): Ordered<V> {
    Ordered([], map[])
  }

  function Put<V>(m: Ordered<V>, key: string, value: V): Ordered<V> {
    Ordered(if key in m.values then m.keys else m.keys + [key], m.values[key := value])
  }
}

module Replies {
  import opened Sequences
  import opened OrderedMaps

  datatype ReplyFrame =
    | Said(id: string, byAgent: bool, text: string)
    | Delta(id: string, text: string)

  function Old(m: Ordered<string>, id: string): string {
    if id in m.values then m.values[id] else ""
  }

  function Apply(m: Ordered<string>, f: ReplyFrame): Ordered<string> {
    match f
    case Said(id, byAgent, text) => if byAgent then Put(m, id, text) else m
    case Delta(id, text) => Put(m, id, Old(m, id) + text)
  }

  function Fold(frames: seq<ReplyFrame>): Ordered<string> {
    if frames == [] then Empty() else Apply(Fold(frames[..|frames| - 1]), frames[|frames| - 1])
  }

  function Listed(m: Ordered<string>, keys: seq<string>): seq<string> {
    if keys == [] then [] else Listed(m, keys[..|keys| - 1]) + [Old(m, keys[|keys| - 1])]
  }

  lemma {:induction false} ListedSnoc(m: Ordered<string>, n: nat)
    requires n < |m.keys|
    ensures Listed(m, m.keys[..n + 1]) == Listed(m, m.keys[..n]) + [Old(m, m.keys[n])] && |Listed(m, m.keys[..n])| == n
  {
    assert m.keys[..n + 1][..n] == m.keys[..n];
    ListedLength(m, m.keys[..n]);
  }

  /** `[...values()].join("\n")`. */
  method JoinValues(m: Ordered<string>) returns (text: string)
    requires m.Valid()
    ensures text == Join(Listed(m, m.keys), "\n")
  {
    text := "";
    for n := 0 to |m.keys|
      invariant text == Join(Listed(m, m.keys[..n]), "\n")
    {
      ListedSnoc(m, n);
      JoinSnoc(Listed(m, m.keys[..n]), Old(m, m.keys[n]), "\n");
      assert m.keys[n] in m.keys;
      text := if n == 0 then m.values[m.keys[n]] else text + "\n" + m.values[m.keys[n]];
    }
    assert m.keys[..|m.keys|] == m.keys;
  }

  /** The loop over the frames and the final join. */
  method ReplyText(frames: seq<ReplyFrame>) returns (text: string)
    ensures text == Join(Listed(Fold(frames), Fold(frames).keys), "\n")
  {
    var keys: seq<string>, values: map<string, string> := [], map[];
    for n := 0 to |frames|
      invariant Ordered(keys, values) == Fold(frames[..n])
    {
      assert frames[..n + 1][..n] == frames[..n];
      var f := frames[n];
      if f.Said? && f.byAgent {
        keys := if f.id in values then keys else keys + [f.id];
        values := values[f.id := f.text];
      } else if f.Delta? {
        var before := if f.id in values then values[f.id] else "";
        keys := if f.id in values then keys else keys + [f.id];
        values := values[f.id := before + f.text];
      }
    }
    assert frames[..|frames|] == frames;
    FoldIsValid(frames);
    text := JoinValues(Ordered(keys, values));
  }

  lemma {:induction false} ListedLength(m: Ordered<string>, keys: seq<string>)
    ensures |Listed(m, keys)| == |keys|
    ensures forall i :: 0 <= i < |keys| ==> Listed(m, keys)[i] == Old(m, keys[i])
  {
    if keys != [] {
      ListedLength(m, keys[..|keys| - 1]);
    }
  }

  lemma {:induction false} FoldIsValid(frames: seq<ReplyFrame>)
    ensures Fold(frames).Valid()
  {
    if frames != [] {
      FoldIsValid(frames[..|frames| - 1]);
    }
  }

  // ----- the declarative meaning

  predicate Sets(f: ReplyFrame, id: string) {
    f.Said? && f.byAgent && f.id == id
  }

  predicate Mentions(f: ReplyFrame, id: string) {
    Sets(f, id) || (f.Delta? && f.id == id)
  }

  /** Everything streamed for one id, in order. */
  function Streamed(frames: seq<ReplyFrame>, id: string): string {
    if frames == [] then ""
    else
      (if frames[0].Delta? && frames[0].id == id then frames[0].text else "") + Streamed(frames[1..], id)
  }

  /** A position from which one id's value is decided: its last agent message, or the start of the log. */
  ghost predicate IsBase(frames: seq<ReplyFrame>, id: string, base: nat) {
    base <= |frames| && (base > 0 ==> Sets(frames[base - 1], id)) && forall i :: base <= i < |frames| ==> !Sets(frames[i], id)
  }

  lemma {:induction false} StreamedConcat(a: seq<ReplyFrame>, b: seq<ReplyFrame>, id: string)
    ensures Streamed(a + b, id) == Streamed(a, id) + Streamed(b, id)
  {
    if a == [] {
      assert a + b == b;
    } else {
      assert (a + b)[0] == a[0] && (a + b)[1..] == a[1..] + b;
      StreamedConcat(a[1..], b, id);
    }
  }

  /** Exactly the mentioned ids are listed. */
  lemma {:induction false} FoldListsMentioned(frames: seq<ReplyFrame>, id: string)
    ensures id in Fold(frames).values <==> exists i :: 0 <= i < |frames| && Mentions(frames[i], id)
  {
    if frames != [] {
      var pre, f := frames[..|frames| - 1], frames[|frames| - 1];
      FoldListsMentioned(pre, id);
      assert forall i :: 0 <= i < |pre| ==> pre[i] == frames[i];
      if Mentions(f, id) {
        assert Mentions(frames[|pre|], id);
      }
    }
  }

  lemma {:induction false} OneMore(m: Ordered<string>, f: ReplyFrame, id: string)
    ensures Old(Apply(m, f), id) == if Sets(f, id) then f.text else Old(m, id) + Streamed([f], id)
  {
    assert [f][1..] == [] && Old(m, id) + "" == Old(m, id);
    assert Streamed([f], id) == (if f.Delta? && f.id == id then f.text else "") + Streamed([], id);
  }

  /** The text of the message before `base`, empty at the start of the log, and everything streamed from `base` on. */
  function Meaning(frames: seq<ReplyFrame>, id: string, base: nat): string
    requires base <= |frames|
  {
    (if base > 0 then frames[base - 1].text else "") + Streamed(frames[base..], id)
  }

  lemma {:induction false} MeaningSnoc(pre: seq<ReplyFrame>, f: ReplyFrame, id: string, base: nat)
    requires base <= |pre|
    ensures Meaning(pre + [f], id, base) == Meaning(pre, id, base) + Streamed([f], id)
  {
    assert (pre + [f])[base..] == pre[base..] + [f];
    StreamedConcat(pre[base..], [f], id);
    var head := if base > 0 then pre[base - 1].text else "";
    assert head + (Streamed(pre[base..], id) + Streamed([f], id)) == (head + Streamed(pre[base..], id)) + Streamed([f], id);
  }

  lemma {:induction false} BaseShrinks(pre: seq<ReplyFrame>, f: ReplyFrame, id: string, base: nat)
    requires base <= |pre| && IsBase(pre + [f], id, base)
    ensures IsBase(pre, id, base) && !Sets(f, id)
  {
    assert (pre + [f])[|pre|] == f;
    assert forall i :: 0 <= i < |pre| ==> (pre + [f])[i] == pre[i];
  }

  lemma {:induction false} FoldFromBase(frames: seq<ReplyFrame>, id: string, base: nat)
    requires IsBase(frames, id, base)
    ensures Old(Fold(frames), id) == Meaning(frames, id, base)
  {
    if frames == [] {
      assert frames[base..] == [];
    } else {
      var pre, f := frames[..|frames| - 1], frames[|frames| - 1];
      assert frames == pre + [f];
      OneMore(Fold(pre), f, id);
      if base == |frames| {
        assert frames[base..] == [] && Sets(f, id);
        assert Meaning(frames, id, base) == f.text + "";
      } else {
        BaseShrinks(pre, f, id, base);
        FoldFromBase(pre, id, base);
        MeaningSnoc(pre, f, id, base);
      }
    }
  }

  lemma {:induction false} SomeBase(frames: seq<ReplyFrame>, id: string) returns (base: nat)
    ensures IsBase(frames, id, base)
  {
    base := |frames|;
    while base > 0 && !Sets(frames[base - 1], id)
      invariant base <= |frames| && forall i :: base <= i < |frames| ==> !Sets(frames[i], id)
    {
      base := base - 1;
    }
  }

  /** Each id's value is the text of its last agent message, empty if there is none, and all later deltas. */
  lemma {:induction false} FoldMeansLastMessageAndDeltas(frames: seq<ReplyFrame>, id: string) returns (base: nat)
    ensures IsBase(frames, id, base)
    ensures Old(Fold(frames), id) == Meaning(frames, id, base)
  {
    base := SomeBase(frames, id);
    FoldFromBase(frames, id, base);
  }

  /** The first frame that mentions an id. */
  ghost predicate FirstAt(frames: seq<ReplyFrame>, id: string, i: nat) {
    i < |frames| && Mentions(frames[i], id) && forall j :: 0 <= j < i ==> !Mentions(frames[j], id)
  }

  lemma {:induction false} FirstAtGrows(pre: seq<ReplyFrame>, f: ReplyFrame, id: string, i: nat)
    requires FirstAt(pre, id, i)
    ensures FirstAt(pre + [f], id, i)
  {
    assert forall j :: 0 <= j <= i ==> (pre + [f])[j] == pre[j];
  }

  /** The listed ids are in the order of their first appearance; returns where each first appears. */
  lemma {:induction false} ListedByFirstAppearance(frames: seq<ReplyFrame>) returns (at: seq<nat>)
    ensures |at| == |Fold(frames).keys|
    ensures forall k :: 0 <= k < |at| ==> FirstAt(frames, Fold(frames).keys[k], at[k])
    ensures forall k, l :: 0 <= k < l < |at| ==> at[k] < at[l]
  {
    at := [];
    if frames != [] {
      var pre, f := frames[..|frames| - 1], frames[|frames| - 1];
      assert frames == pre + [f];
      at := ListedByFirstAppearance(pre);
      FoldIsValid(pre);
      forall k | 0 <= k < |at| ensures FirstAt(frames, Fold(pre).keys[k], at[k]) {
        FirstAtGrows(pre, f, Fold(pre).keys[k], at[k]);
      }
      if Fold(frames).keys != Fold(pre).keys {
        FoldListsMentioned(pre, f.id);
        assert forall j :: 0 <= j < |pre| ==> !Mentions(pre[j], f.id) && frames[j] == pre[j];
        assert FirstAt(frames, f.id, |pre|);
        at := at + [|pre|];
      }
    }
  }

  // ----- streaming

  function Chunked(id: string, chunks: seq<string>): seq<ReplyFrame> {
    if chunks == [] then [] else [Delta(id, chunks[0])] + Chunked(id, chunks[1..])
  }

  function Flatten(chunks: seq<string>): string {
    if chunks == [] then "" else chunks[0] + Flatten(chunks[1..])
  }

  function ApplyAll(m: Ordered<string>, frames: seq<ReplyFrame>): Ordered<string>
    decreases |frames|
  {
    if frames == [] then m else ApplyAll(Apply(m, frames[0]), frames[1..])
  }

  lemma {:induction false} FoldConcat(a: seq<ReplyFrame>, b: seq<ReplyFrame>)
    ensures Fold(a + b) == ApplyAll(Fold(a), b)
    decreases |b|
  {
    if b == [] {
      assert a + b == a;
    } else {
      var c := a + [b[0]];
      assert c + b[1..] == a + b && c[..|c| - 1] == a;
      FoldConcat(c, b[1..]);
    }
  }

  lemma {:induction false} ChunksAppend(m: Ordered<string>, id: string, chunks: seq<string>)
    requires id in m.values
    decreases |chunks|
    ensures ApplyAll(m, Chunked(id, chunks)) == Put(m, id, m.values[id] + Flatten(chunks))
  {
    if chunks == [] {
      assert m.values[id] + "" == m.values[id];
    } else {
      var n := Apply(m, Delta(id, chunks[0]));
      assert Chunked(id, chunks)[1..] == Chunked(id, chunks[1..]);
      ChunksAppend(n, id, chunks[1..]);
      assert m.values[id] + chunks[0] + Flatten(chunks[1..]) == m.values[id] + Flatten(chunks);
    }
  }

  /** Streaming a reply in any chunks after an empty message folds to the same as one whole message, in any log. */
  lemma {:induction false} StreamingIsTransparent(before: seq<ReplyFrame>, id: string, chunks: seq<string>, after: seq<ReplyFrame>)
    ensures Fold(before + [Said(id, true, "")] + Chunked(id, chunks) + after)
            == Fold(before + [Said(id, true, Flatten(chunks))] + after)
  {
    var begun, whole := before + [Said(id, true, "")], before + [Said(id, true, Flatten(chunks))];
    assert begun[..|begun| - 1] == before && whole[..|whole| - 1] == before;
    ChunksAppend(Fold(begun), id, chunks);
    FoldConcat(begun, Chunked(id, chunks));
    assert "" + Flatten(chunks) == Flatten(chunks);
    assert Fold(begun + Chunked(id, chunks)) == Fold(whole);
    FoldConcat(begun + Chunked(id, chunks), after);
    FoldConcat(whole, after);
  }
}

module TurnStarts {
  import opened Text
  import opened OrderedMaps

  datatype Turn = Turn(id: string, handle: string)

  datatype Outgoing = ChatState(busy: bool, turn: Option<Turn>) | OtherFrame

  datatype Item = Item(at: nat, frame: Outgoing)

  datatype Start = Start(at: nat, turn: Turn)

  /** A busy state frame whose turn is not Chopin's own title work. */
  predicate Counts(item: Item) {
    item.frame.ChatState? && item.frame.busy && item.frame.turn.Some? && item.frame.turn.value.handle != "chopin"
  }

  function Fold(seen: seq<Item>): Ordered<Start> {
    if seen == [] then Empty()
    else
      var before, item := Fold(seen[..|seen| - 1]), seen[|seen| - 1];
      if Counts(item) && item.frame.turn.value.id !in before.values
      then Put(before, item.frame.turn.value.id, Start(item.at, item.frame.turn.value))
      else before
  }

  /** `turns.values()`. */
  function Values(m: Ordered<Start>): seq<Start>
    requires forall k :: k in m.keys ==> k in m.values
  {
    seq(|m.keys|, i requires 0 <= i < |m.keys| => m.values[m.keys[i]])
  }

  lemma {:induction false} FoldIsValid(seen: seq<Item>)
    ensures Fold(seen).Valid()
  {
    if seen != [] {
      FoldIsValid(seen[..|seen| - 1]);
    }
  }

  /** The item at `i` is the first that counts for its turn. */
  ghost predicate Begins(seen: seq<Item>, i: nat) {
    i < |seen| && Counts(seen[i])
    && forall j :: 0 <= j < i && Counts(seen[j]) ==> seen[j].frame.turn.value.id != seen[i].frame.turn.value.id
  }

  /** A result lists each turn at its first counting item, in order, and misses none. */
  ghost predicate Meaning(seen: seq<Item>, starts: seq<Start>, at: seq<nat>) {
    && |at| == |starts|
    && (forall k :: 0 <= k < |at| ==> Begins(seen, at[k]) && starts[k] == Start(seen[at[k]].at, seen[at[k]].frame.turn.value))
    && (forall k, l :: 0 <= k < l < |at| ==> at[k] < at[l])
    && (forall i :: Begins(seen, i) ==> i in at)
  }

  lemma {:induction false} BeginsGrows(pre: seq<Item>, item: Item, i: nat)
    requires i < |pre|
    ensures Begins(pre + [item], i) <==> Begins(pre, i)
  {
    assert forall j :: 0 <= j <= i ==> (pre + [item])[j] == pre[j];
  }

  /** `starts` loops once over the log. */
  method Starts(seen: seq<Item>) returns (starts: seq<Start>)
    ensures Fold(seen).Valid() && starts == Values(Fold(seen))
  {
    var keys: seq<string>, values: map<string, Start> := [], map[];
    for n := 0 to |seen|
      invariant Ordered(keys, values) == Fold(seen[..n])
    {
      assert seen[..n + 1][..n] == seen[..n];
      var item := seen[n];
      if item.frame.OtherFrame? || !item.frame.busy || item.frame.turn.None? {
        continue;
      }
      var turn := item.frame.turn.value;
      if turn.handle != "chopin" && turn.id !in values {
        keys := keys + [turn.id];
        values := values[turn.id := Start(item.at, turn)];
      }
    }
    assert seen[..|seen|] == seen;
    FoldIsValid(seen);
    starts := [];
    for n := 0 to |keys|
      invariant starts == Values(Fold(seen))[..n]
    {
      assert keys[n] in keys;
      starts := starts + [values[keys[n]]];
    }
  }

  lemma {:induction false} KeyIsTurn(seen: seq<Item>)
    ensures Fold(seen).Valid()
    ensures forall k :: k in Fold(seen).values ==> Fold(seen).values[k].turn.id == k
    ensures forall k :: k in Fold(seen).values <==> exists i :: 0 <= i < |seen| && Counts(seen[i]) && seen[i].frame.turn.value.id == k
  {
    FoldIsValid(seen);
    if seen != [] {
      var pre, item := seen[..|seen| - 1], seen[|seen| - 1];
      KeyIsTurn(pre);
      forall k | k in Fold(seen).values
        ensures exists i :: 0 <= i < |seen| && Counts(seen[i]) && seen[i].frame.turn.value.id == k
      {
        if k in Fold(pre).values {
          var i :| 0 <= i < |pre| && Counts(pre[i]) && pre[i].frame.turn.value.id == k;
          assert seen[i] == pre[i];
        } else {
          assert seen[|pre|] == item;
        }
      }
      forall i | 0 <= i < |seen| && Counts(seen[i]) ensures seen[i].frame.turn.value.id in Fold(seen).values {
        if i < |pre| {
          assert pre[i] == seen[i];
        }
      }
    }
  }

  lemma {:induction false} LastBegins(pre: seq<Item>, item: Item)
    ensures Begins(pre + [item], |pre|) <==> Counts(item) && item.frame.turn.value.id !in Fold(pre).values
  {
    KeyIsTurn(pre);
    assert forall i :: 0 <= i < |pre| ==> pre[i] == (pre + [item])[i];
  }

  /** The turns are distinct, each at its first counting frame and with that frame's time, in log order. */
  lemma {:induction false} StartsMeanFirstFrames(seen: seq<Item>) returns (at: seq<nat>)
    ensures Fold(seen).Valid() && Meaning(seen, Values(Fold(seen)), at)
  {
    FoldIsValid(seen);
    at := [];
    if seen != [] {
      var pre, item := seen[..|seen| - 1], seen[|seen| - 1];
      assert seen == pre + [item];
      at := StartsMeanFirstFrames(pre);
      LastBegins(pre, item);
      forall i: nat | i < |pre| ensures Begins(seen, i) <==> Begins(pre, i) {
        BeginsGrows(pre, item, i);
      }
      assert forall i :: 0 <= i < |pre| ==> pre[i] == seen[i];
      if Counts(item) && item.frame.turn.value.id !in Fold(pre).values {
        at := at + [|pre|];
        assert Values(Fold(seen)) == Values(Fold(pre)) + [Start(item.at, item.frame.turn.value)];
      } else {
        assert Values(Fold(seen)) == Values(Fold(pre));
      }
    }
  }

  /** Extending the log only appends: an earlier result is a prefix of every later one. */
  lemma {:induction false} StartsAreStable(seen: seq<Item>, more: seq<Item>)
    ensures Fold(seen).Valid() && Fold(seen + more).Valid()
    ensures Values(Fold(seen)) <= Values(Fold(seen + more))
  {
    FoldIsValid(seen);
    FoldIsValid(seen + more);
    if more == [] {
      assert seen + more == seen;
    } else {
      var fewer := more[..|more| - 1];
      var all := seen + more;
      assert all[..|all| - 1] == seen + fewer;
      StartsAreStable(seen, fewer);
      var m := Fold(seen + fewer);
      assert forall i :: 0 <= i < |m.keys| ==> m.keys[i] in m.values;
      assert Values(m) <= Values(Fold(all));
    }
  }
}
