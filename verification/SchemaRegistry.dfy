/** The schema registry: validators under one flat string key per (entity, version). */
module SchemaRegistry {
  import opened Prelude

  /** A compiled JSON Schema, opaque here. */
  type Schema = nat

  /** A schema file to load; `compiled` is None when reading or compiling it fails. */
  datatype SchemaFile = SchemaFile(entity: string, version: int, compiled: Option<Schema>)

  function Digit(d: nat): char
    requires d < 10
  {
    "0123456789"[d]
  }

  function Digits(n: nat): string {
    if n < 10 then [Digit(n)] else Digits(n / 10) + [Digit(n % 10)]
  }

  /** The %d form of an integer. */
  function Decimal(n: int): string {
    if n < 0 then "-" + Digits(-n) else Digits(n)
  }

  function Key(entity: string, version: int): string {
    entity + ":v" + Decimal(version)
  }

  lemma {:induction false} DigitsAreDigits(n: nat)
    ensures Digits(n) != ""
    ensures forall c :: c in Digits(n) ==> '0' <= c <= '9'
  {
    if n >= 10 {
      DigitsAreDigits(n / 10);
    }
  }

  lemma {:induction false} DigitInjective(a: nat, b: nat)
    requires a < 10 && b < 10 && Digit(a) == Digit(b)
    ensures a == b
  {
  }

  /** The last digit, and the digits before it. */
  lemma {:induction false} LastDigit(n: nat)
    ensures Digits(n) != [] && Digits(n)[|Digits(n)| - 1] == Digit(n % 10)
    ensures n < 10 <==> |Digits(n)| == 1
    ensures n >= 10 ==> Digits(n)[..|Digits(n)| - 1] == Digits(n / 10)
  {
    hide Digit;
    DigitsAreDigits(n / 10);
  }

  lemma {:induction false} DigitsInjective(m: nat, n: nat)
    requires Digits(m) == Digits(n)
    ensures m == n
  {
    hide Digit, Digits;
    LastDigit(m);
    LastDigit(n);
    DigitInjective(m % 10, n % 10);
    if m >= 10 {
      DigitsInjective(m / 10, n / 10);
    }
  }

  lemma {:induction false} DecimalInjective(m: int, n: int)
    requires Decimal(m) == Decimal(n)
    ensures m == n
  {
    DigitsAreDigits(if m < 0 then -m else m);
    DigitsAreDigits(if n < 0 then -n else n);
    assert m >= 0 ==> Decimal(m)[0] in Digits(m);
    assert n >= 0 ==> Decimal(n)[0] in Digits(n);
    if m < 0 {
      assert Decimal(m)[1..] == Digits(-m) && Decimal(n)[1..] == Digits(-n);
      DigitsInjective(-m, -n);
    } else {
      DigitsInjective(m, n);
    }
  }

  lemma {:induction false} DecimalHasNoColon(n: int)
    ensures ':' !in Decimal(n)
  {
    DigitsAreDigits(if n < 0 then -n else n);
  }

  lemma {:induction false} SuffixesAlign(e: string, d: string, e': string, d': string)
    requires e + ":v" + d == e' + ":v" + d'
    requires ':' !in d' && |d| <= |d'|
    ensures e == e' && d == d'
  {
    var s, s' := e + ":v" + d, e' + ":v" + d';
    assert s[|e|] == ':';
    assert s'[|e'| + 1] == 'v';
    assert forall j :: |e'| + 2 <= j < |s'| ==> s'[j] == d'[j - |e'| - 2];
    assert |e| == |e'|;
    assert s[..|e|] == e && s'[..|e'|] == e';
    assert s[|e| + 2..] == d && s'[|e'| + 2..] == d';
  }

  /** Distinct (entity, version) pairs never share a key, even when names hold ":v". */
  lemma {:induction false} KeyInjective(e: string, v: int, e': string, v': int)
    requires Key(e, v) == Key(e', v')
    ensures e == e' && v == v'
  {
    DecimalHasNoColon(v);
    DecimalHasNoColon(v');
    if |Decimal(v)| <= |Decimal(v')| {
      SuffixesAlign(e, Decimal(v), e', Decimal(v'));
    } else {
      SuffixesAlign(e', Decimal(v'), e, Decimal(v));
    }
    DecimalInjective(v, v');
  }

  /** The flat map answers every lookup as the map keyed by pairs does. */
  ghost predicate Agree(flat: map<string, Schema>, pairs: map<(string, int), Schema>) {
    forall e: string, v: int ::
      && (Key(e, v) in flat <==> (e, v) in pairs)
      && ((e, v) in pairs && Key(e, v) in flat ==> flat[Key(e, v)] == pairs[(e, v)])
  }

  lemma {:induction false} StoreKeepsAgreement(flat: map<string, Schema>, pairs: map<(string, int), Schema>,
                                               e: string, v: int, s: Schema)
    requires Agree(flat, pairs)
    ensures Agree(flat[Key(e, v) := s], pairs[(e, v) := s])
  {
    forall e': string, v': int
      ensures Key(e', v') == Key(e, v) ==> e' == e && v' == v
    {
      if Key(e', v') == Key(e, v) {
        KeyInjective(e', v', e, v);
      }
    }
  }

  /** The map keyed by pairs that loading `files` in order builds. */
  function Loaded(files: seq<SchemaFile>): map<(string, int), Schema> {
    if files == [] then
      map[]
    else
      var f := files[|files| - 1];
      var before := Loaded(files[..|files| - 1]);
      if f.compiled.Some? then before[(f.entity, f.version) := f.compiled.value] else before
  }

  /** After loading, a pair is there exactly when some file compiled for it, and the last such file counts. */
  lemma {:induction false} LoadedExactly(files: seq<SchemaFile>, e: string, v: int)
    ensures (e, v) in Loaded(files) <==>
            exists k :: 0 <= k < |files| && files[k].entity == e && files[k].version == v && files[k].compiled.Some?
    ensures forall k :: 0 <= k < |files| && files[k].entity == e && files[k].version == v && files[k].compiled.Some?
                        && (forall j :: k < j < |files| ==>
                              !(files[j].entity == e && files[j].version == v && files[j].compiled.Some?)) ==>
              (e, v) in Loaded(files) && Loaded(files)[(e, v)] == files[k].compiled.value
  {
    if files != [] {
      var n := |files| - 1;
      LoadedExactly(files[..n], e, v);
      assert forall k :: 0 <= k < n ==> files[..n][k] == files[k];
    }
  }

  class Registry {
    var validators: map<string, Schema>

    constructor ()
      ensures validators == map[]
    {
      validators := map[];
    }

    /** Reads and compiles one file; a failure leaves the registry as it was. */
    method Load(f: SchemaFile) returns (ok: bool)
      modifies this
      ensures ok == f.compiled.Some?
      ensures validators ==
              if ok then old(validators)[Key(f.entity, f.version) := f.compiled.value] else old(validators)
    {
      if f.compiled.None? {
        return false;
      }
      validators := validators[Key(f.entity, f.version) := f.compiled.value];
      return true;
    }

    /** Is the pair registered? */
    predicate Has(entity: string, version: int)
      reads this
    {
      Key(entity, version) in validators
    }

    /** The lookup at the head of Validate: None stands for "schema not found". */
    function Find(entity: string, version: int): Option<Schema>
      reads this
    {
      if Key(entity, version) in validators then Some(validators[Key(entity, version)]) else None
    }
  }

  /**
   * Loads every file in order. A registry comes back exactly when all of them
   * load, and then each lookup agrees with the map keyed by pairs.
   */
  method NewRegistry(files: seq<SchemaFile>) returns (r: Registry?)
    ensures r != null <==> forall f :: f in files ==> f.compiled.Some?
    ensures r != null ==> fresh(r) && Agree(r.validators, Loaded(files))
    ensures r != null ==> forall e, v :: r.Has(e, v) <==> (e, v) in Loaded(files)
    ensures r != null ==>
              forall e, v :: r.Find(e, v) == if (e, v) in Loaded(files) then Some(Loaded(files)[(e, v)]) else None
  {
    hide Key;
    r := new Registry();
    var i := 0;
    while i < |files|
      invariant 0 <= i <= |files|
      invariant r != null && fresh(r)
      invariant forall f :: f in files[..i] ==> f.compiled.Some?
      invariant Agree(r.validators, Loaded(files[..i]))
    {
      ghost var before := r.validators;
      var ok := r.Load(files[i]);
      if !ok {
        assert files[i] in files;
        return null;
      }
      assert files[..i + 1][..i] == files[..i];
      StoreKeepsAgreement(before, Loaded(files[..i]), files[i].entity, files[i].version, files[i].compiled.value);
      i := i + 1;
    }
    assert files[..i] == files;
  }
}
