/**
 PEM trust bundles as text: splitting a bundle into certificate blocks and
 joining blocks back (the framing of sections 5.1 and 5.2 of RFC 7468).
 */
module Pem {
  import opened Options
  import opened Text

  const BEGIN := "-----BEGIN CERTIFICATE-----"
  const END := "-----END CERTIFICATE-----"

  datatype Piece = Piece(block: string, rest: string)

  /** The first certificate block of a text and what follows it. */
  function NextBlock(text: string): (r: Option<Piece>)
    ensures r.Some? ==> |r.value.rest| < |text|
  {
    var b := Find(text, BEGIN);
    if b.None? then None
    else
      var after := text[b.value..];
      var e := Find(after, END);
      if e.None? then None
      else
        var end := e.value + |END|;
        Some(Piece(Trim(after[..end]) + "\n", after[end..]))
  }

  /** The certificate blocks of a text, in order; everything between blocks is ignored. */
  function Split(text: string): (blocks: seq<string>)
    decreases |text|
  {
    var next := NextBlock(text);
    if next.None? then [] else [next.value.block] + Split(next.value.rest)
  }

  function Join(blocks: seq<string>): (text: string)
  {
    if blocks == [] then "" else blocks[0] + Join(blocks[1..])
  }

  /** `split_pem_certs`: the scanning loop over what is left of the bundle. */
  method SplitPemCerts(bundle: string) returns (out: seq<string>)
    ensures out == Split(bundle)
  {
    hide NextBlock;
    out := [];
    var rest := bundle;
    while true
      invariant out + Split(rest) == Split(bundle)
      decreases |rest|
    {
      var next := NextBlock(rest);
      if next.None? {
        assert Split(rest) == [];
        break;
      }
      assert Split(rest) == [next.value.block] + Split(next.value.rest);
      out := out + [next.value.block];
      rest := next.value.rest;
    }
  }

  /** `normalize_block`: the first block of a text, or the trimmed text when it has none. */
  function NormalizeBlock(pem: string): (block: string)
  {
    if Split(pem) != [] then Split(pem)[0] else Trim(pem) + "\n"
  }

  // ------------------------------------------------------------ normal blocks

  /** A block as `Split` produces it: begin line first, the first end marker last, one newline. */
  ghost predicate Canonical(block: string)
  {
    && |block| > 0 && block[|block| - 1] == '\n'
    && var body := block[..|block| - 1];
    && MatchesAt(body, BEGIN, 0)
    && Find(body, END) == Some(|body| - |END|)
  }

  lemma FindIs(s: string, pat: string, i: nat)
    requires MatchesAt(s, pat, i) && forall k :: 0 <= k < i ==> !MatchesAt(s, pat, k)
    ensures Find(s, pat) == Some(i)
  {
  }

  lemma MatchAtDrop(s: string, pat: string, i: nat)
    requires i <= |s| && MatchesAt(s, pat, i)
    ensures MatchesAt(s[i..], pat, 0)
  {
    assert s[i..][0..|pat|] == s[i..i + |pat|];
  }

  /** The first match in a text is the first match in any extension of it. */
  lemma FindInPrefix(s: string, t: string, pat: string)
    requires Find(s, pat).Some?
    ensures Find(s + t, pat) == Find(s, pat)
  {
    var i := Find(s, pat).value;
    var j := Find(s + t, pat);
    assert (s + t)[i..i + |pat|] == s[i..i + |pat|];
    assert MatchesAt(s + t, pat, i);
    assert j.Some? && j.value <= i;
    assert (s + t)[j.value..j.value + |pat|] == s[j.value..j.value + |pat|];
    assert MatchesAt(s, pat, j.value);
  }

  lemma TrimFramed(s: string)
    requires s != [] && !IsWhitespace(s[0]) && !IsWhitespace(s[|s| - 1])
    ensures Trim(s) == s
  {
  }

  /** A canonical block at the head of a text is found unchanged. */
  lemma NextOfBlock(block: string, rest: string)
    requires Canonical(block)
    ensures NextBlock(block + rest) == Some(Piece(block, "\n" + rest))
  {
    hide TrimStart, TrimEnd, Trim, FindFrom;
    var body := block[..|block| - 1];
    var tail := "\n" + rest;
    var text := body + tail;
    assert block + rest == text;
    assert text[0..|BEGIN|] == body[0..|BEGIN|];
    FindIs(text, BEGIN, 0);
    FindInPrefix(body, tail, END);
    assert text[0..] == text && text[..|body|] == body && text[|body|..] == tail;
    assert body[0] == '-' by { assert body[0..|BEGIN|][0] == body[0] && BEGIN[0] == '-'; }
    assert body[|body| - 1] == '-' by {
      assert body[|body| - |END|..|body|][|END| - 1] == body[|body| - 1] && END[|END| - 1] == '-';
    }
    TrimFramed(body);
    assert block == body + "\n";
  }

  lemma SplitHead(block: string, rest: string)
    requires Canonical(block)
    ensures Split(block + rest) == [block] + Split("\n" + rest)
  {
    NextOfBlock(block, rest);
  }

  lemma SplitEmpty()
    ensures Split("") == []
  {
    assert !MatchesAt("", BEGIN, 0);
  }

  lemma SliceShift(a: string, b: string, i: nat, j: nat)
    requires i <= j <= |b|
    ensures (a + b)[|a| + i..|a| + j] == b[i..j]
  {
  }

  /** A text that cannot start a begin marker is ignored. */
  lemma SplitSkips(junk: string, text: string)
    requires forall i :: 0 <= i < |junk| ==> !MatchesAt(junk + text, BEGIN, i)
    ensures Split(junk + text) == Split(text)
  {
    var whole := junk + text;
    forall i | 0 <= i <= |text| ensures MatchesAt(whole, BEGIN, |junk| + i) <==> MatchesAt(text, BEGIN, i) {
      if i + |BEGIN| <= |text| {
        SliceShift(junk, text, i, i + |BEGIN|);
      }
    }
    var f, g := Find(whole, BEGIN), Find(text, BEGIN);
    assert g.Some? ==> MatchesAt(whole, BEGIN, |junk| + g.value);
    if f.Some? {
      assert f.value >= |junk|;
      assert MatchesAt(text, BEGIN, f.value - |junk|);
      assert f.value == |junk| + g.value;
      assert whole[f.value..] == text[g.value..];
    }
  }

  lemma SplitSkipsNewline(text: string)
    ensures Split("\n" + text) == Split(text)
  {
    var whole := "\n" + text;
    assert !MatchesAt(whole, BEGIN, 0) by {
      if |BEGIN| <= |whole| {
        assert whole[0..|BEGIN|][0] == '\n';
      }
    }
    SplitSkips("\n", text);
  }

  /** No end marker starts in the first two characters of a begin marker. */
  lemma NoEndInBegin(after: string, k: nat)
    requires MatchesAt(after, BEGIN, 0) && k <= 1
    ensures !MatchesAt(after, END, k)
  {
    assert BEGIN[6] != END[6] && BEGIN[7] != END[6];
    assert after[0..|BEGIN|][k + 6] == after[k + 6];
    if k + |END| <= |after| {
      assert after[k..k + |END|][6] == after[k + 6];
    }
  }

  /** The text from a begin marker through the first end marker is a canonical block. */
  lemma FramedIsCanonical(after: string)
    requires MatchesAt(after, BEGIN, 0) && Find(after, END).Some?
    ensures Canonical(Trim(after[..Find(after, END).value + |END|]) + "\n")
  {
    var e := Find(after, END).value;
    NoEndInBegin(after, 0);
    NoEndInBegin(after, 1);
    assert e >= 2;
    var end := e + |END|;
    var body := after[..end];
    assert body[0..|BEGIN|] == after[0..|BEGIN|];
    assert body[e..e + |END|] == after[e..e + |END|];
    forall k | 0 <= k < e ensures !MatchesAt(body, END, k) {
      assert body[k..k + |END|] == after[k..k + |END|];
      assert !MatchesAt(after, END, k);
    }
    FindIs(body, END, e);
    assert body[0] == '-' by { assert body[0..|BEGIN|][0] == body[0] && BEGIN[0] == '-'; }
    assert body[end - 1] == '-' by { assert body[e..end][|END| - 1] == body[end - 1] && END[|END| - 1] == '-'; }
    TrimFramed(body);
    assert (body + "\n")[..|body + "\n"| - 1] == body;
  }

  lemma NextIsCanonical(text: string)
    requires NextBlock(text).Some?
    ensures Canonical(NextBlock(text).value.block)
  {
    var b := Find(text, BEGIN).value;
    MatchAtDrop(text, BEGIN, b);
    FramedIsCanonical(text[b..]);
  }

  /** Everything `Split` produces is canonical. */
  lemma {:induction false} SplitIsCanonical(text: string)
    ensures forall i :: 0 <= i < |Split(text)| ==> Canonical(Split(text)[i])
    decreases |text|
  {
    var next := NextBlock(text);
    if next.Some? {
      NextIsCanonical(text);
      SplitIsCanonical(next.value.rest);
    }
  }

  /** Round trip: joining blocks and splitting the text gives the blocks back. */
  lemma {:induction false} SplitJoin(blocks: seq<string>)
    requires forall i :: 0 <= i < |blocks| ==> Canonical(blocks[i])
    ensures Split(Join(blocks)) == blocks
  {
    if blocks == [] {
      SplitEmpty();
    } else {
      var rest := Join(blocks[1..]);
      SplitJoin(blocks[1..]);
      SplitHead(blocks[0], rest);
      SplitSkipsNewline(rest);
    }
  }

  /** What one pass joins and stores, the next pass splits into the same blocks, whatever text it came from. */
  lemma StoredBundleReadsBack(text: string)
    ensures Split(Join(Split(text))) == Split(text)
  {
    SplitIsCanonical(text);
    SplitJoin(Split(text));
  }

  lemma SplitOne(block: string)
    requires Canonical(block)
    ensures Split(block) == [block]
  {
    SplitHead(block, "");
    SplitSkipsNewline("");
    SplitEmpty();
    assert block + "" == block && "\n" + "" == "\n";
  }

  /** Normalising a stored block is the identity, so comparing blocks by bytes is sound. */
  lemma NormalizeCanonical(block: string)
    requires Canonical(block)
    ensures NormalizeBlock(block) == block
  {
    SplitOne(block);
  }
}
