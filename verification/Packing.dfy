/**
Packing memories into a character budget, and the accounting of what the packing saved. Text is a
sequence of Unicode characters.
*/
module Packing {
  datatype Item = Item(id: string, title: string, source: string, content: string)

  datatype Context = Context(text: string, ids: seq<string>, characters: nat, truncated: bool)

  function Header(m: Item): string {
    "[" + m.id + "] " + m.title + "\nSource: " + m.source + "\n"
  }

  function Block(m: Item): string {
    Header(m) + m.content + "\n\n"
  }

  /** Everything there is to pack. */
  function Full(memories: seq<Item>): string {
    if memories == [] then "" else Full(memories[..|memories| - 1]) + Block(memories[|memories| - 1])
  }

  function Ids(memories: seq<Item>): seq<string> {
    seq(|memories|, i requires 0 <= i < |memories| => memories[i].id)
  }

  lemma FullSnoc(memories: seq<Item>, n: nat)
    requires n < |memories|
    ensures Full(memories[..n + 1]) == Full(memories[..n]) + Block(memories[n])
  {
    assert memories[..n + 1][..n] == memories[..n];
  }

  lemma {:induction false} FullPrefix(memories: seq<Item>, m: nat, n: nat)
    requires m <= n <= |memories|
    ensures Full(memories[..m]) <= Full(memories[..n])
    ensures m < n ==> |Full(memories[..m])| + |Block(memories[m])| <= |Full(memories[..n])|
    decreases n - m
  {
    if m < n {
      FullSnoc(memories, m);
      FullPrefix(memories, m + 1, n);
    }
  }

  /**
  What a packing is: a prefix of everything, within the budget, cut only if everything does not fit;
  the ids are those of the first memories, and these are the ones of which the text holds the whole
  header and at least one further character, while it holds nothing of the others.
  */
  ghost predicate Packs(memories: seq<Item>, budget: int, out: Context) {
    && out.text <= Full(memories)
    && |out.text| <= budget
    && out.characters == |out.text|
    && (out.truncated <==> |Full(memories)| > budget)
    && (!out.truncated ==> out.text == Full(memories))
    && |out.ids| <= |memories|
    && out.ids == Ids(memories[..|out.ids|])
    && (forall i | 0 <= i < |memories| ::
          i < |out.ids| <==> |Full(memories[..i])| + |Header(memories[i])| < |out.text|)
    && |out.text| <= |Full(memories[..|out.ids|])|
    // No room is wasted: the text stops early only before a header that does not fit whole with a character.
    && (|out.text| < budget && out.truncated ==>
          && |out.ids| < |memories|
          && |out.text| == |Full(memories[..|out.ids|])|
          && budget <= |out.text| + |Header(memories[|out.ids|])|)
  }

  method PackContext(memories: seq<Item>, budget: int) returns (out: Context)
    ensures budget < 1 ==> out == Context("", [], 0, false)
    ensures budget >= 1 ==> Packs(memories, budget, out)
  {
    if budget < 1 { return Context("", [], 0, false); }
    var text, ids, truncated := "", [], false;
    assert memories[..|memories|] == memories;
    var i := 0;
    while i < |memories|
      invariant 0 <= i <= |memories|
      invariant text == Full(memories[..i]) && |text| <= budget && !truncated
      invariant ids == Ids(memories[..i])
    {
      var m := memories[i];
      IdsSnoc(memories, i);
      var remaining, h := budget - |text|, |Header(m)|;
      if remaining <= h {
        truncated := true;
        StopsBefore(memories, budget, i);
        break;
      }
      var body := m.content + "\n\n";
      if |body| > remaining - h {
        StopsInside(memories, budget, i);
        body := body[..remaining - h];
        truncated := true;
      } else {
        WholeBlock(memories, i);
      }
      text := text + Header(m) + body;
      ids := ids + [m.id];
      if truncated { break; }
      i := i + 1;
    }
    out := Context(text, ids, |text|, truncated);
    Packed(memories, budget, out);
  }

  lemma IdsSnoc(memories: seq<Item>, n: nat)
    requires n < |memories|
    ensures Ids(memories[..n + 1]) == Ids(memories[..n]) + [memories[n].id]
  {
  }

  lemma StopsBefore(memories: seq<Item>, budget: int, n: nat)
    requires n < |memories| && |Full(memories[..n])| <= budget <= |Full(memories[..n])| + |Header(memories[n])|
    ensures Stopped(memories, budget, Full(memories[..n]), Ids(memories[..n]), true)
  {
    FullPrefix(memories, n, |memories|);
    assert memories[..|memories|] == memories;
  }

  lemma WholeBlock(memories: seq<Item>, n: nat)
    requires n < |memories|
    ensures Full(memories[..n + 1]) == Full(memories[..n]) + Header(memories[n]) + (memories[n].content + "\n\n")
    ensures |Full(memories[..n + 1])| == |Full(memories[..n])| + |Header(memories[n])| + |memories[n].content + "\n\n"|
  {
    var f, h, body := Full(memories[..n]), Header(memories[n]), memories[n].content + "\n\n";
    FullSnoc(memories, n);
    assert Block(memories[n]) == h + body;
    assert f + (h + body) == f + h + body;
  }

  lemma StopsInside(memories: seq<Item>, budget: int, n: nat)
    requires n < |memories|
    requires |Full(memories[..n])| + |Header(memories[n])| < budget < |Full(memories[..n])| + |Block(memories[n])|
    ensures var f, h, body := Full(memories[..n]), Header(memories[n]), memories[n].content + "\n\n";
            var cut := budget - |f| - |h|;
            cut < |body| && Stopped(memories, budget, f + h + body[..cut], Ids(memories[..n + 1]), true)
  {
    CutBlock(memories, n, budget - |Full(memories[..n])|);
  }

  // Cutting the body of memory `i` leaves a prefix of everything.
  lemma CutBlock(memories: seq<Item>, i: nat, remaining: int)
    requires i < |memories| && |Header(memories[i])| < remaining < |Block(memories[i])|
    ensures var m := memories[i];
            var h, body := |Header(m)|, m.content + "\n\n";
            Full(memories[..i]) + Header(m) + body[..remaining - h] <= Full(memories)
    ensures |Full(memories[..i + 1])| == |Full(memories[..i])| + |Block(memories[i])|
  {
    var m := memories[i];
    var h, body := |Header(m)|, m.content + "\n\n";
    WholeBlock(memories, i);
    FullPrefix(memories, i + 1, |memories|);
    assert memories[..|memories|] == memories;
    CutPrefix(Full(memories[..i]) + Header(m), body, remaining - h, Full(memories));
  }

  lemma CutPrefix(before: string, body: string, n: nat, whole: string)
    requires n <= |body| && before + body <= whole
    ensures before + body[..n] <= whole
  {
    assert before + body[..n] == whole[..|before| + n];
  }

  // The three ways in which the loop ends: at the end of the list, before a header, or inside a body.
  ghost predicate Stopped(memories: seq<Item>, budget: int, text: string, ids: seq<string>, truncated: bool) {
    var n := |ids|;
    && n <= |memories| && ids == Ids(memories[..n])
    && text <= Full(memories) && |text| <= budget
    && (|| (!truncated && n == |memories| && text == Full(memories))
        || (truncated && n < |memories| && text == Full(memories[..n]) && budget <= |text| + |Header(memories[n])|)
        || (truncated && n > 0 && |text| == budget && budget < |Full(memories[..n])|
            && |Full(memories[..n - 1])| + |Header(memories[n - 1])| < budget))
  }

  lemma Packed(memories: seq<Item>, budget: int, out: Context)
    requires budget >= 1 && out.characters == |out.text|
    requires Stopped(memories, budget, out.text, out.ids, out.truncated)
    ensures Packs(memories, budget, out)
  {
    var n := |out.ids|;
    assert memories[..|memories|] == memories;
    forall i | 0 <= i < |memories|
      ensures i < n <==> |Full(memories[..i])| + |Header(memories[i])| < |out.text|
    {
      FullPrefix(memories, i, |memories|);
      if i < n { FullPrefix(memories, i, n); FullPrefix(memories, i, n - 1); } else { FullPrefix(memories, n, i); }
    }
    if n < |memories| { FullPrefix(memories, n, |memories|); }
    FullPrefix(memories, n, |memories|);
  }

  /** A packing is determined by its budget, and a larger budget only ever appends to it. */
  lemma LargerBudgetExtends(memories: seq<Item>, small: int, large: int, a: Context, b: Context)
    requires 1 <= small <= large && Packs(memories, small, a) && Packs(memories, large, b)
    ensures a.text <= b.text && a.ids <= b.ids
    ensures small == large ==> a == b
    ensures b.truncated ==> a.truncated
  {
    NoShorter(memories, small, large, a, b);
    if small == large { NoShorter(memories, large, small, b, a); }
    PrefixesNest(a.text, b.text, Full(memories));
    if small == large { PrefixesNest(b.text, a.text, Full(memories)); }
    IdsFollowText(memories, small, large, a, b);
    if small == large { IdsFollowText(memories, large, small, b, a); }
  }

  lemma PrefixesNest(a: string, b: string, all: string)
    requires a <= all && b <= all && |a| <= |b|
    ensures a <= b
  {
    assert a == all[..|a|] && b == all[..|b|];
  }

  lemma NoShorter(memories: seq<Item>, small: int, large: int, a: Context, b: Context)
    requires 1 <= small <= large && Packs(memories, small, a) && Packs(memories, large, b)
    ensures |a.text| <= |b.text|
  {
    // If b stops early it stops before a header that does not fit in the larger budget, so a stops there too.
    if |a.ids| <= |b.ids| { FullPrefix(memories, |a.ids|, |b.ids|); }
  }

  lemma IdsFollowText(memories: seq<Item>, small: int, large: int, a: Context, b: Context)
    requires Packs(memories, small, a) && Packs(memories, large, b) && |a.text| <= |b.text|
    ensures a.ids <= b.ids
  {
    var n := |a.ids|;
    if n > 0 { assert n - 1 < |b.ids|; }
    forall i | 0 <= i < n ensures a.ids[i] == b.ids[i] {
      assert memories[..n][i] == memories[i] == memories[..|b.ids|][i];
    }
  }

  // ---- what the text shows ----

  // Where memory i starts.
  function At(memories: seq<Item>, i: nat): nat
    requires i < |memories|
  {
    |Full(memories[..i])|
  }

  /**
  Every memory whose id is reported is shown at its place: its id in brackets, its title, its source,
  and then its content from the beginning, whole unless the text ends there.
  */
  lemma PackedShows(memories: seq<Item>, budget: int, out: Context, i: nat)
    requires budget >= 1 && Packs(memories, budget, out) && i < |out.ids|
    ensures i < |memories| && At(memories, i) <= |out.text| && out.ids[i] == memories[i].id
    ensures var m, text := memories[i], out.text[At(memories, i)..];
            var head := "[" + m.id + "] " + m.title + "\nSource: " + m.source + "\n";
            && head < text
            && (m.content + "\n\n" <= text[|head|..] || text[|head|..] <= m.content + "\n\n")
  {
    assert out.ids[i] == memories[..|out.ids|][i].id;
    BlockPlaced(memories, budget, out, i);
    var m := memories[i];
    SplitPrefix(out.text[At(memories, i)..], Header(m), m.content + "\n\n");
  }

  // What follows the start of memory i in the text is its block, or a beginning of it.
  lemma BlockPlaced(memories: seq<Item>, budget: int, out: Context, i: nat)
    requires budget >= 1 && Packs(memories, budget, out) && i < |out.ids|
    ensures At(memories, i) + |Header(memories[i])| < |out.text|
    ensures var text, block := out.text[At(memories, i)..], Header(memories[i]) + (memories[i].content + "\n\n");
            block <= text || text <= block
  {
    var from, whole := At(memories, i), Full(memories);
    BlockSlice(memories, i);
    TailOf(out.text, whole, from);
    SlicesNest(whole, from, |out.text|, from + |Block(memories[i])|);
  }

  lemma {:induction false} BlockSlice(memories: seq<Item>, i: nat)
    requires i < |memories|
    ensures var from, block := At(memories, i), Header(memories[i]) + (memories[i].content + "\n\n");
            && block == Block(memories[i]) && from + |block| <= |Full(memories)|
            && Full(memories)[from..from + |block|] == block
  {
    var before, block, whole := Full(memories[..i]), Block(memories[i]), Full(memories);
    assert block == Header(memories[i]) + (memories[i].content + "\n\n");
    FullSnoc(memories, i);
    FullPrefix(memories, i + 1, |memories|);
    assert memories[..|memories|] == memories;
    TailOf(before + block, whole, |before|);
  }

  lemma TailOf(text: string, whole: string, from: nat)
    requires text <= whole && from <= |text|
    ensures text[from..] == whole[from..|text|]
  {
  }

  lemma SlicesNest(whole: string, from: nat, a: nat, b: nat)
    requires from <= a <= |whole| && from <= b <= |whole|
    ensures whole[from..a] <= whole[from..b] || whole[from..b] <= whole[from..a]
  {
  }

  lemma SplitPrefix(text: string, head: string, body: string)
    requires |head| < |text| && (head + body <= text || text <= head + body)
    ensures head < text && (body <= text[|head|..] || text[|head|..] <= body)
  {
    var block := head + body;
    if block <= text {
      assert text[..|head|] == block[..|head|] == head;
      assert text[|head|..][..|body|] == block[|head|..] == body;
    } else {
      assert text == block[..|text|];
      assert text[..|head|] == block[..|head|] == head;
      assert text[|head|..] == body[..|text| - |head|];
    }
  }

  /** The length of everything, from the lengths of its parts and fifteen characters of layout for each memory. */
  function Length(memories: seq<Item>): nat {
    if memories == [] then 0
    else
      var m := memories[|memories| - 1];
      Length(memories[..|memories| - 1]) + |m.id| + |m.title| + |m.source| + |m.content| + 15
  }

  lemma {:induction false} FullLength(memories: seq<Item>)
    ensures |Full(memories)| == Length(memories)
  {
    if memories != [] {
      FullLength(memories[..|memories| - 1]);
      BlockLength(memories[|memories| - 1]);
    }
  }

  lemma BlockLength(m: Item)
    ensures |Block(m)| == |m.id| + |m.title| + |m.source| + |m.content| + 15
  {
  }

  /** The baseline, counted memory by memory, is the length of everything. */
  method FullContextCharacters(memories: seq<Item>) returns (total: nat)
    ensures total == |Full(memories)| == Length(memories)
  {
    FullLength(memories);
    total := 0;
    for i := 0 to |memories|
      invariant total == |Full(memories[..i])|
    {
      FullSnoc(memories, i);
      total := total + (|Header(memories[i])| + |memories[i].content| + 2);
    }
    assert memories[..|memories|] == memories;
  }
}
