/** The canonical text of a subject-alternative-name list, which the broker keystore digests. */
module San {
  import opened Text
  import opened Order

  datatype San = Dns(name: string) | Ip(address: string)

  function Line(s: San): (t: string)
  {
    match s
    case Dns(d) => "DNS:" + d
    case Ip(a) => "IP:" + a
  }

  function Render(sans: seq<San>): (t: string)
  {
    if sans == [] then "" else Line(sans[0]) + ['\n'] + Render(sans[1..])
  }

  /** The digest input for base and extra names, under the name type's total order. */
  function DigestInput(base: seq<San>, extra: seq<San>, less: (San, San) -> bool): (t: string)
  {
    Render(SortDedup(base + extra, less))
  }

  method ComputeDigestInput(base: seq<San>, extra: seq<San>, less: (San, San) -> bool) returns (t: string)
    ensures t == DigestInput(base, extra, less)
  {
    var all := SortDedup(base + extra, less);
    t := "";
    for i := 0 to |all|
      invariant t + Render(all[i..]) == Render(all)
    {
      t := t + Line(all[i]);
      t := t + ['\n'];
      assert all[i..][1..] == all[i + 1..];
    }
  }

  function Names(s: seq<San>): (r: set<San>)
  {
    set x | x in s
  }

  /** Order, duplicates and the split into base and extra names do not matter. */
  lemma DigestInputOfSet(base: seq<San>, extra: seq<San>, base': seq<San>, extra': seq<San>, less: (San, San) -> bool)
    requires Total(less) && Names(base) + Names(extra) == Names(base') + Names(extra')
    ensures DigestInput(base, extra, less) == DigestInput(base', extra', less)
  {
    forall y ensures y in base + extra <==> y in base' + extra' {
      assert y in Names(base) + Names(extra) <==> y in Names(base') + Names(extra');
    }
    SortDedupOfSet(base + extra, base' + extra', less);
  }

  ghost predicate OneLine(s: seq<San>)
  {
    forall i :: 0 <= i < |s| ==> Without(Line(s[i]), '\n')
  }

  lemma LineInjective(a: San, b: San)
    requires Line(a) == Line(b)
    ensures a == b
  {
    assert Line(a)[0] == Line(b)[0];
    assert a.Dns? == b.Dns?;
    assert Line(a)[if a.Dns? then 4 else 3..] == (if a.Dns? then a.name else a.address);
    assert Line(b)[if b.Dns? then 4 else 3..] == (if b.Dns? then b.name else b.address);
  }

  lemma {:induction false} RenderInjective(s: seq<San>, t: seq<San>)
    requires OneLine(s) && OneLine(t) && Render(s) == Render(t)
    ensures s == t
  {
    if s == [] {
      assert t == [] || |Render(t)| > 0;
    } else {
      assert |Render(s)| > 0;
      FirstSeparator(Line(s[0]), Render(s[1..]), Line(t[0]), Render(t[1..]), '\n');
      LineInjective(s[0], t[0]);
      RenderInjective(s[1..], t[1..]);
      assert s == [s[0]] + s[1..] && t == [t[0]] + t[1..];
    }
  }

  /**
   The digest input determines the names: for names without line breaks, two
   inputs are equal exactly when they name the same set.  A leaf renewed from
   the names parsed out of itself therefore matches the requested digest, and
   any real change of names does not.
   */
  lemma DigestInputDeterminesNames(base: seq<San>, extra: seq<San>, parsed: seq<San>, less: (San, San) -> bool)
    requires Total(less) && OneLine(base) && OneLine(extra) && OneLine(parsed)
    ensures DigestInput(base, extra, less) == DigestInput(parsed, [], less)
      <==> Names(base) + Names(extra) == Names(parsed)
  {
    if Names(base) + Names(extra) == Names(parsed) {
      DigestInputOfSet(base, extra, parsed, [], less);
    }
    if DigestInput(base, extra, less) == DigestInput(parsed, [], less) {
      SortDedupCorrect(base + extra, less);
      SortDedupCorrect(parsed + [], less);
      var s, t := SortDedup(base + extra, less), SortDedup(parsed + [], less);
      forall i | 0 <= i < |s| ensures Without(Line(s[i]), '\n') {
        assert s[i] in s;
        assert s[i] in base || s[i] in extra;
      }
      forall i | 0 <= i < |t| ensures Without(Line(t[i]), '\n') {
        assert t[i] in t;
        assert t[i] in parsed;
      }
      RenderInjective(s, t);
      forall y ensures y in Names(base) + Names(extra) <==> y in Names(parsed) {
        assert y in base + extra <==> y in s;
        assert y in parsed + [] <==> y in t;
      }
    }
  }
}
