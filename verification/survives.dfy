/** The last rule of `check_structure`: a stimulus survives being written and read (formats/xvec.py:399).
    What the builder finishes does, exactly when the texts it was given can be written. */
module Survives {
  import opened Text
  import opened Wrap
  import opened Stimulus
  import opened Decimal
  import opened XvecQuoting
  import opened XvecFile
  import V = Validation
  import F = BuilderFacts
  import B = BuilderState

  function FixedDict(h: Header): map<string, string> {
    map["prim" := h.prim, "cfg" := h.cfg, "nin" := Signed(h.nin), "nout" := Signed(h.nout), "nclk" := Signed(h.nclk),
        "settle_ps" := Signed(h.settle), "seed" := Signed(h.seed)]
  }

  function OptionalDict(h: Header): map<string, string> {
    (if h.sep.Some? then map["async_sep_ps" := Signed(h.sep.value)] else map[])
    + (if h.reject then map["expect" := "reject"] else map[])
    + (if h.illegal.Some? then map["illegal" := Join(",", h.illegal.value)] else map[])
  }

  /** The header as `build` writes it. */
  function HeaderDict(h: Header): map<string, string> { FixedDict(h) + OptionalDict(h) + AttrDict(h.attrs) }

  function AttrDict(attrs: map<string, string>): map<string, string> {
    map k | k in (set n | n in attrs :: "attr." + n) && |k| >= 5 && k[5..] in attrs :: attrs[k[5..]]
  }

  function FileOf(v: Vec): File { File(HeaderDict(v.header), v.clocks, v.events, None, "") }

  /** The texts of the header can be written: attribute names are header keys, and nothing holds a control
      character. */
  predicate TextsOk(h: Header) {
    && Representable(h.prim) && Representable(h.cfg)
    && (h.illegal.Some? ==> Representable(Join(",", h.illegal.value)))
    && forall n | n in h.attrs :: All(n, KeyChars) && Representable(h.attrs[n])
  }

  lemma AttrKeys(attrs: map<string, string>)
    ensures forall k :: k in AttrDict(attrs) <==> |k| >= 5 && k[..5] == "attr." && k[5..] in attrs
    ensures forall n :: n in attrs ==> "attr." + n in AttrDict(attrs) && AttrDict(attrs)["attr." + n] == attrs[n]
  {
    forall n
      ensures ("attr." + n)[5..] == n && ("attr." + n)[..5] == "attr."
    {}
    forall k | |k| >= 5 && k[..5] == "attr."
      ensures "attr." + k[5..] == k
    {}
  }

  lemma SignedOk(n: int)
    requires n >= 0
    ensures Signed(n) == Dec(n) && DigitsOnly(Signed(n)) && XvecLines.NatOf(Signed(n)) == n && Representable(Signed(n))
  {
    DecReadsBack(n);
  }

  predicate Plain(k: string) { k in HeaderOrder() }

  lemma PlainKeys()
    ensures forall k | Plain(k) :: HeaderKey(k)
  {
    assert HeaderKey("prim") && HeaderKey("cfg") && HeaderKey("nin") && HeaderKey("nout") && HeaderKey("nclk");
    assert HeaderKey("settle_ps") && HeaderKey("seed") && HeaderKey("async_sep_ps") && HeaderKey("expect") && HeaderKey("illegal");
  }

  lemma PlainNoAttr(k: string)
    requires Plain(k)
    ensures !(|k| >= 5 && k[..5] == "attr.")
  {
    assert k[0] != 'a' || k[1] == 's';
    assert |k| >= 5 ==> k[..5][0] == k[0] && k[..5][1] == k[1];
  }

  lemma AttrKey(n: string)
    ensures HeaderKey("attr." + n) <==> All(n, KeyChars)
  {
    var k := "attr." + n;
    assert forall i :: 0 <= i < |n| ==> k[i + 5] == n[i];
  }

  /** The three parts have no key in common. */
  lemma Apart(h: Header)
    ensures FixedDict(h).Keys !! OptionalDict(h).Keys !! AttrDict(h.attrs).Keys
    ensures forall k | k in FixedDict(h) || k in OptionalDict(h) :: Plain(k)
  {
    FixedPlain(h);
    OptionalPlain(h);
    hide FixedDict, OptionalDict, AttrDict, Plain;
    forall k | Plain(k)
      ensures k !in AttrDict(h.attrs)
    {
      AttrKeys(h.attrs);
      PlainNoAttr(k);
    }
  }

  lemma FixedPlain(h: Header)
    ensures forall k | k in FixedDict(h) :: Plain(k) && k in Required()
  {}

  lemma OptionalPlain(h: Header)
    ensures forall k | k in OptionalDict(h) :: Plain(k) && k !in FixedDict(h)
  {
    hide Join;
  }

  lemma DictKeys(h: Header)
    ensures forall k :: k in HeaderDict(h) ==> Plain(k) || k in AttrDict(h.attrs)
    ensures forall k :: k in AttrDict(h.attrs) ==> k in HeaderDict(h) && HeaderDict(h)[k] == AttrDict(h.attrs)[k]
  {
    Apart(h);
    hide FixedDict, OptionalDict, AttrDict, Plain;
  }

  lemma Looked(h: Header)
    ensures var d := HeaderDict(h);
      && d.Keys >= {"prim", "cfg", "nin", "nout", "nclk", "settle_ps", "seed"}
      && d["prim"] == h.prim && d["cfg"] == h.cfg && d["nin"] == Signed(h.nin) && d["nout"] == Signed(h.nout)
      && d["nclk"] == Signed(h.nclk) && d["settle_ps"] == Signed(h.settle) && d["seed"] == Signed(h.seed)
  {
    Apart(h);
    FixedIs(h);
    hide FixedDict, OptionalDict, AttrDict, Plain;
    assert forall k :: k in FixedDict(h) ==> k in HeaderDict(h) && HeaderDict(h)[k] == FixedDict(h)[k];
  }

  lemma FixedIs(h: Header)
    ensures var d := FixedDict(h);
      && d.Keys >= {"prim", "cfg", "nin", "nout", "nclk", "settle_ps", "seed"}
      && d["prim"] == h.prim && d["cfg"] == h.cfg && d["nin"] == Signed(h.nin) && d["nout"] == Signed(h.nout)
      && d["nclk"] == Signed(h.nclk) && d["settle_ps"] == Signed(h.settle) && d["seed"] == Signed(h.seed)
  {
    hide Signed;
  }

  lemma LookedMore(h: Header)
    ensures var d := HeaderDict(h);
      && ("async_sep_ps" in d <==> h.sep.Some?) && (h.sep.Some? ==> d["async_sep_ps"] == Signed(h.sep.value))
      && ("expect" in d <==> h.reject) && (h.reject ==> d["expect"] == "reject")
      && ("illegal" in d <==> h.illegal.Some?) && (h.illegal.Some? ==> d["illegal"] == Join(",", h.illegal.value))
  {
    Apart(h);
    OptionalIs(h);
    PlainNames();
    hide FixedDict, OptionalDict, AttrDict, Plain, Join;
    forall k | Plain(k) && k !in FixedDict(h)
      ensures (k in HeaderDict(h) <==> k in OptionalDict(h)) && (k in OptionalDict(h) ==> HeaderDict(h)[k] == OptionalDict(h)[k])
    {
      if k in AttrDict(h.attrs) {
        AttrKeys(h.attrs);
        PlainNoAttr(k);
      }
    }
    NotFixed(h);
  }

  lemma PlainNames()
    ensures Plain("async_sep_ps") && Plain("expect") && Plain("illegal")
  {}

  lemma NotFixed(h: Header)
    ensures "async_sep_ps" !in FixedDict(h) && "expect" !in FixedDict(h) && "illegal" !in FixedDict(h)
  {
    hide Signed;
  }

  lemma OptionalIs(h: Header)
    ensures var d := OptionalDict(h);
      && ("async_sep_ps" in d <==> h.sep.Some?) && (h.sep.Some? ==> d["async_sep_ps"] == Signed(h.sep.value))
      && ("expect" in d <==> h.reject) && (h.reject ==> d["expect"] == "reject")
      && ("illegal" in d <==> h.illegal.Some?) && (h.illegal.Some? ==> d["illegal"] == Join(",", h.illegal.value))
  {
    hide Signed, Join;
  }

  predicate NamesOk(h: Header) { forall n | n in h.attrs :: All(n, KeyChars) }

  lemma HeaderTextIs(h: Header)
    requires HeaderOk(h)
    ensures HeaderTextOk(HeaderDict(h)) <==> NamesOk(h)
  {
    hide HeaderDict, AttrDict, HeaderKey, DigitsOnly, Plain;
    var d := HeaderDict(h);
    Looked(h);
    LookedMore(h);
    KeysLegal(h);
    SignedOk(h.nin);
    SignedOk(h.nout);
    SignedOk(h.nclk);
    SignedOk(h.settle);
    SignedOk(h.seed);
    if h.sep.Some? { SignedOk(h.sep.value); }
  }

  lemma KeysLegal(h: Header)
    ensures (forall k | k in HeaderDict(h) :: HeaderKey(k)) <==> NamesOk(h)
  {
    hide HeaderDict, AttrDict, HeaderKey, Plain, All;
    var d := HeaderDict(h);
    DictKeys(h);
    PlainKeys();
    AttrKeys(h.attrs);
    forall n | n in h.attrs
      ensures HeaderKey("attr." + n) <==> All(n, KeyChars)
    {
      AttrKey(n);
    }
    forall k | k in d && !Plain(k)
      ensures k[5..] in h.attrs && k == "attr." + k[5..]
    {}
  }

  predicate AllRepresentable(d: map<string, string>) { forall k | k in d :: Representable(d[k]) }

  lemma TextsRepresentable(h: Header)
    requires HeaderOk(h)
    ensures AllRepresentable(HeaderDict(h)) && NamesOk(h) <==> TextsOk(h)
  {
    FixedRepresentable(h);
    OptionalRepresentable(h);
    AttrRepresentable(h.attrs);
    Apart(h);
    hide FixedDict, OptionalDict, AttrDict, Plain, Representable, All, Join, AllRepresentable;
    Union(FixedDict(h), OptionalDict(h));
    Union(FixedDict(h) + OptionalDict(h), AttrDict(h.attrs));
  }

  lemma Union(a: map<string, string>, b: map<string, string>)
    requires a.Keys !! b.Keys
    ensures AllRepresentable(a + b) <==> AllRepresentable(a) && AllRepresentable(b)
  {
    hide Representable;
    assert forall k | k in a :: (a + b)[k] == a[k];
    assert forall k | k in b :: (a + b)[k] == b[k];
  }

  lemma AttrRepresentable(attrs: map<string, string>)
    ensures AllRepresentable(AttrDict(attrs)) <==> forall n | n in attrs :: Representable(attrs[n])
  {
    AttrKeys(attrs);
    hide Representable;
    forall k | k in AttrDict(attrs)
      ensures AttrDict(attrs)[k] == attrs[k[5..]]
    {
      assert "attr." + k[5..] == k;
    }
    forall n | n in attrs
      ensures "attr." + n in AttrDict(attrs) && AttrDict(attrs)["attr." + n] == attrs[n]
    {}
  }

  lemma FixedRepresentable(h: Header)
    requires HeaderOk(h)
    ensures AllRepresentable(FixedDict(h)) <==> Representable(h.prim) && Representable(h.cfg)
  {
    hide Representable, Signed;
    FixedIs(h);
    SignedOk(h.nin);
    SignedOk(h.nout);
    SignedOk(h.nclk);
    SignedOk(h.settle);
    SignedOk(h.seed);
  }

  lemma OptionalRepresentable(h: Header)
    requires HeaderOk(h)
    ensures AllRepresentable(OptionalDict(h)) <==> (h.illegal.Some? ==> Representable(Join(",", h.illegal.value)))
  {
    hide Representable, Signed, Join;
    OptionalIs(h);
    RejectRepresentable();
    if h.sep.Some? { SignedOk(h.sep.value); }
  }

  lemma RejectRepresentable()
    ensures Representable("reject")
  {}

  /** The rules depend on the header through its numbers only. */
  lemma SameStructure(h: Header, g: Header, cs: seq<Clock>, es: seq<Event>)
    requires h.nin == g.nin && h.nout == g.nout && h.nclk == g.nclk && h.settle == g.settle && h.seed == g.seed && h.sep == g.sep
    ensures StructureOk(Vec(h, cs, es)) == StructureOk(Vec(g, cs, es))
  {
    hide LabelsUnique, Ordered, Cotimed;
    SameDeclared(h, g, cs, es);
    forall e | e in es
      ensures EventOk(Vec(h, cs, es), e) == EventOk(Vec(g, cs, es), e)
    {}
  }

  lemma SameDeclared(h: Header, g: Header, cs: seq<Clock>, es: seq<Event>)
    ensures forall k :: Declared(Vec(h, cs, es), k) == Declared(Vec(g, cs, es), k)
    ensures forall k :: DeclaredFree(Vec(h, cs, es), k) == DeclaredFree(Vec(g, cs, es), k)
  {}

  lemma HeadBack(h: Header)
    requires HeaderOk(h) && HeaderTextOk(HeaderDict(h))
    ensures var g := HeadOf(HeaderDict(h));
      h.nin == g.nin && h.nout == g.nout && h.nclk == g.nclk && h.settle == g.settle && h.seed == g.seed && h.sep == g.sep
  {
    hide HeaderDict, Attrs, Listed, XvecLines.NatOf, HeaderKey, DigitsOnly;
    Looked(h);
    LookedMore(h);
    SignedOk(h.nin);
    SignedOk(h.nout);
    SignedOk(h.nclk);
    SignedOk(h.settle);
    SignedOk(h.seed);
    if h.sep.Some? { SignedOk(h.sep.value); }
  }

  /** The whole of `check_structure`. */
  ghost predicate SurvivesText(v: Vec) { FileOk(FileOf(v)) && Dumps(FileOf(v)).Some? && Loads(Dumps(FileOf(v)).value) == Some(FileOf(v)) }

  /** A stimulus that passes the other rules survives its text exactly when its header can be written. */
  lemma SurvivesExact(v: Vec)
    requires StructureOk(v)
    ensures SurvivesText(v) <==> TextsOk(v.header)
  {
    hide HeaderDict, HeadOf, HeaderTextOk, Dumps, Loads, TextsOk, NamesOk, Representable, ClocksOk, EventOk, LabelsUnique, Ordered, Cotimed;
    var h := v.header;
    HeaderTextIs(h);
    TextsRepresentable(h);
    if NamesOk(h) {
      HeadBack(h);
      SameStructure(HeadOf(HeaderDict(h)), h, v.clocks, v.events);
      assert v == Vec(h, v.clocks, v.events);
      RoundTrip(FileOf(v));
    }
  }

  /** Valid by construction, the round trip included: what the builder finishes has no error and survives
      its text, exactly when it meets the guard and its texts can be written. */
  lemma BuiltSurvives(c: B.Params, gap: int, calls: seq<B.Call>)
    requires B.Constructed(c, gap) && B.Run(c, B.Start(c), calls).Some? && !B.Run(c, B.Start(c), calls).value.open
    ensures var v := B.Finished(c, B.Run(c, B.Start(c), calls).value);
      V.ErrorFree(v, c.m) && SurvivesText(v) <==> F.Guard(v) && TextsOk(v.header)
  {
    var v := B.Finished(c, B.Run(c, B.Start(c), calls).value);
    B.ValidByConstruction(c, gap, calls);
    hide B.Finished, B.Run, B.Start, B.Constructed, F.Guard, SurvivesText, TextsOk;
    if V.ErrorFree(v, c.m) {
      ErrorFreeStructure(v, c.m);
      SurvivesExact(v);
    }
  }

  lemma ErrorFreeStructure(v: Vec, m: DutMap)
    requires Numbered(m) && V.ErrorFree(v, m)
    ensures StructureOk(v)
  {
    hide StructureOk;
  }
}
