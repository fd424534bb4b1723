/** The store-independent types of the key/value library (store.go):
    the metadata envelope `Option`, its mutators and the generator hook. */
module Gokv {
  import opened Errors

  /** time.Time as nanoseconds after Go's zero instant; time.Duration in nanoseconds. */
  type Time = int
  type Duration = int

  /** The metadata stored beside a value. It has a single field, the expiry instant. */
  datatype Option = Option(expired: Time)

  /** The zero value `Option{}`. */
  const ZeroOption: Option := Option(0)

  /** The memory a `*Option` points to. */
  class OptionBox {
    var value: Option

    constructor (v: Option)
      ensures value == v
    {
      value := v;
    }
  }

  /** An OptionFn: a closure that overwrites the pointed-to Option. It may read the
      clock, so it is given the instant `now` at which it runs. */
  datatype OptionFn = OptionFn(mutate: (Time, Option) -> Option)

  /** Expired(d): when run at `now`, sets the expiry to `now + d` and keeps the rest. */
  function Expired(d: Duration): (f: OptionFn)
    ensures forall now: Time, o: Option :: f.mutate(now, o) == o.(expired := now + d)
  {
    OptionFn((now: Time, o: Option) => o.(expired := now + d))
  }

  /** Apply(v): replaces the whole Option with `v`, whatever it held and whenever it runs. */
  function Apply(v: Option): (f: OptionFn)
    ensures forall now: Time, o: Option :: f.mutate(now, o) == v
  {
    OptionFn((now: Time, o: Option) => v)
  }

  /** The Option that results from running `fns` in list order, starting from `o`. */
  function Applied(fns: seq<OptionFn>, now: Time, o: Option): Option
    decreases |fns|
  {
    if fns == [] then o else Applied(fns[1..], now, fns[0].mutate(now, o))
  }

  /** OptionFns.Apply: runs every function, in order, on the same Option and returns
      the very pointer it was given. */
  method ApplyFns(fns: seq<OptionFn>, option: OptionBox, now: Time) returns (r: OptionBox)
    modifies option
    ensures r == option
    ensures option.value == Applied(fns, now, old(option.value))
  {
    var i := 0;
    while i < |fns|
      invariant 0 <= i <= |fns|
      invariant option.value == Applied(fns[..i], now, old(option.value))
    {
      assert fns[..i + 1] == fns[..i] + [fns[i]];
      AppliedAppend(fns[..i], [fns[i]], now, old(option.value));
      option.value := fns[i].mutate(now, option.value);
      i := i + 1;
    }
    assert fns[..i] == fns;
    r := option;
  }

  /** Running `a` and then `b` is running their concatenation. */
  lemma {:induction false} AppliedAppend(a: seq<OptionFn>, b: seq<OptionFn>, now: Time, o: Option)
    ensures Applied(a + b, now, o) == Applied(b, now, Applied(a, now, o))
    decreases |a|
  {
    if a == [] {
      assert a + b == b;
    } else {
      assert (a + b)[1..] == a[1..] + b;
      AppliedAppend(a[1..], b, now, a[0].mutate(now, o));
    }
  }

  /** An empty list leaves the Option as it was. */
  lemma NoFnsKeepOption(now: Time, o: Option)
    ensures Applied([], now, o) == o
  {
  }

  /** Apply(v) discards whatever ran before it: only the functions after it matter. */
  lemma {:induction false} ApplyDiscardsEarlier(pre: seq<OptionFn>, v: Option, post: seq<OptionFn>, now: Time, o: Option)
    ensures Applied(pre + [Apply(v)] + post, now, o) == Applied(post, now, v)
  {
    AppliedAppend(pre + [Apply(v)], post, now, o);
    AppliedAppend(pre, [Apply(v)], now, o);
  }

  /** {Apply(v)} applied to any Option, in particular to Option{}, yields `v`. */
  lemma {:induction false} ApplyAlone(v: Option, now: Time, o: Option)
    ensures Applied([Apply(v)], now, o) == v
  {
    assert [] + [Apply(v)] + [] == [Apply(v)];
    ApplyDiscardsEarlier([], v, [], now, o);
  }

  /** Last writer wins: of two Apply functions the later one decides the result. */
  lemma {:induction false} LastWriterWins(a: Option, b: Option, now: Time, o: Option)
    ensures Applied([Apply(a), Apply(b)], now, o) == b
  {
    assert [Apply(a)] + [Apply(b)] + [] == [Apply(a), Apply(b)];
    ApplyDiscardsEarlier([Apply(a)], b, [], now, o);
  }

  /** A value a generator produced, with its metadata. */
  datatype Generated = Generated(value: string, option: Option)

  /** GeneratorFn: given the key, yields a value and an Option, or an error. */
  type GeneratorFn = string -> Result<Generated>

  /** The optional generator hook argument of Get (a nil func in Go). */
  datatype Generator = NoGenerator | Generator(fn: GeneratorFn)
}
