/**
 * The client's configuration and the functional options that set it.
 * Both packages of the library (the root package and pkg/tripadvisor) declare
 * the same four fields, the same defaults and the same four options; this
 * module states them once.
 */
module Config {

  /** time.Duration: a signed 64-bit count of nanoseconds. */
  type Duration = d: int | -0x8000_0000_0000_0000 <= d <= 0x7fff_ffff_ffff_ffff

  const Second: Duration := 1_000_000_000

  const DefaultEndpoint := "https://api.tripadvisor.com/api/partner/2.0/"

  /** The four configured fields of a client. */
  datatype Settings = Settings(key: string, languageCode: string, endpoint: string, timeout: Duration)

  /** What New starts from before any option runs; the key is Go's zero string. */
  const Defaults := Settings("", "en_UK", DefaultEndpoint, 30 * Second)

  /** The options SetKey, SetLanguageCode, SetEndpoint and SetTimeout. Each is a
      closure in the source; here it is the value the closure captured. */
  datatype Option =
    | SetKey(key: string)
    | SetLanguageCode(code: string)
    | SetEndpoint(endpoint: string)
    | SetTimeout(timeout: Duration)

  /** Names the four fields, so that properties can speak of "a field". */
  datatype Field = Key | LanguageCode | Endpoint | Timeout

  datatype Value = Text(text: string) | Nanoseconds(duration: Duration)

  function Get(s: Settings, f: Field): Value {
    match f
    case Key => Text(s.key)
    case LanguageCode => Text(s.languageCode)
    case Endpoint => Text(s.endpoint)
    case Timeout => Nanoseconds(s.timeout)
  }

  /** The one field an option writes. */
  function Target(o: Option): Field {
    match o
    case SetKey(_) => Key
    case SetLanguageCode(_) => LanguageCode
    case SetEndpoint(_) => Endpoint
    case SetTimeout(_) => Timeout
  }

  /** The value an option writes into its field. */
  function Written(o: Option): Value {
    match o
    case SetKey(k) => Text(k)
    case SetLanguageCode(c) => Text(c)
    case SetEndpoint(e) => Text(e)
    case SetTimeout(t) => Nanoseconds(t)
  }

  /** Running one option: its own field takes the captured value, and every
      other field keeps the value it had. */
  function ApplyOption(s: Settings, o: Option): (r: Settings)
    ensures Get(r, Target(o)) == Written(o)
    ensures forall f :: f != Target(o) ==> Get(r, f) == Get(s, f)
  {
    match o
    case SetKey(k) => s.(key := k)
    case SetLanguageCode(c) => s.(languageCode := c)
    case SetEndpoint(e) => s.(endpoint := e)
    case SetTimeout(t) => s.(timeout := t)
  }

  /** Running a list of options in list order, the first one first. */
  function ApplyAll(s: Settings, opts: seq<Option>): Settings
    decreases |opts|
  {
    if opts == [] then s else ApplyOption(ApplyAll(s, opts[..|opts| - 1]), opts[|opts| - 1])
  }

  /** The settings New ends with, before it builds the HTTP client. */
  function Configure(opts: seq<Option>): Settings {
    ApplyAll(Defaults, opts)
  }

  /** Settings are determined by their four fields. */
  lemma SettingsExtensional(a: Settings, b: Settings)
    requires forall f :: Get(a, f) == Get(b, f)
    ensures a == b
  {
    assert Get(a, Key) == Get(b, Key);
    assert Get(a, LanguageCode) == Get(b, LanguageCode);
    assert Get(a, Endpoint) == Get(b, Endpoint);
    assert Get(a, Timeout) == Get(b, Timeout);
  }

  /** The field-wise contract of ApplyOption fixes its result: any settings
      that agree with it on the written field and with s on the others are it. */
  lemma ApplyOptionDeterminedByContract(s: Settings, o: Option, r: Settings)
    requires Get(r, Target(o)) == Written(o)
    requires forall f :: f != Target(o) ==> Get(r, f) == Get(s, f)
    ensures r == ApplyOption(s, o)
  {
    var a := ApplyOption(s, o);
    forall f ensures Get(r, f) == Get(a, f) {
    }
    SettingsExtensional(r, a);
  }

  /** With no options, New yields the documented defaults. */
  lemma NoOptionsGiveDefaults()
    ensures Configure([]).key == ""
    ensures Configure([]).languageCode == "en_UK"
    ensures Configure([]).endpoint == "https://api.tripadvisor.com/api/partner/2.0/"
    ensures Configure([]).timeout == 30_000_000_000
  {
  }

  /** Last writer wins: when opts[i] is the last option that writes field f,
      f ends with the value opts[i] wrote, whatever came before. */
  lemma {:induction false} LastWriterWins(s: Settings, opts: seq<Option>, f: Field, i: nat)
    requires i < |opts| && Target(opts[i]) == f
    requires forall j :: i < j < |opts| ==> Target(opts[j]) != f
    ensures Get(ApplyAll(s, opts), f) == Written(opts[i])
    decreases |opts|
  {
    var n := |opts|;
    if i < n - 1 {
      var init := opts[..n - 1];
      assert init[i] == opts[i];
      forall j | i < j < |init| ensures Target(init[j]) != f {
        assert init[j] == opts[j];
      }
      LastWriterWins(s, init, f, i);
    }
  }

  /** A field that no option in the list writes keeps its starting value. */
  lemma {:induction false} UnwrittenFieldKept(s: Settings, opts: seq<Option>, f: Field)
    requires forall j :: 0 <= j < |opts| ==> Target(opts[j]) != f
    ensures Get(ApplyAll(s, opts), f) == Get(s, f)
    decreases |opts|
  {
    if opts != [] {
      var init := opts[..|opts| - 1];
      forall j | 0 <= j < |init| ensures Target(init[j]) != f {
        assert init[j] == opts[j];
      }
      UnwrittenFieldKept(s, init, f);
    }
  }

  /** Running a + b is running a, then b from where a left off. */
  lemma {:induction false} ApplyAllAppend(s: Settings, a: seq<Option>, b: seq<Option>)
    ensures ApplyAll(s, a + b) == ApplyAll(ApplyAll(s, a), b)
    decreases |b|
  {
    if b == [] {
      assert a + b == a;
    } else {
      var ab := a + b;
      assert ab[..|ab| - 1] == a + b[..|b| - 1];
      assert ab[|ab| - 1] == b[|b| - 1];
      ApplyAllAppend(s, a, b[..|b| - 1]);
    }
  }

  /** Dropping an option from the list changes no field other than its own. */
  lemma {:induction false} DropOptionKeepsOtherFields(s: Settings, a: seq<Option>, o: Option, b: seq<Option>, f: Field)
    requires Target(o) != f
    ensures Get(ApplyAll(s, a + [o] + b), f) == Get(ApplyAll(s, a + b), f)
    decreases |b|
  {
    if b == [] {
      assert a + [o] + b == a + [o];
      assert (a + [o])[..|a|] == a;
      assert a + b == a;
    } else {
      var long, short := a + [o] + b, a + b;
      var b' := b[..|b| - 1];
      assert long[..|long| - 1] == a + [o] + b';
      assert short[..|short| - 1] == a + b';
      assert long[|long| - 1] == short[|short| - 1] == b[|b| - 1];
      DropOptionKeepsOtherFields(s, a, o, b', f);
    }
  }

  /** Options that write different fields may run in either order. */
  lemma OptionsOnDifferentFieldsCommute(s: Settings, o1: Option, o2: Option)
    requires Target(o1) != Target(o2)
    ensures ApplyOption(ApplyOption(s, o1), o2) == ApplyOption(ApplyOption(s, o2), o1)
  {
  }

  /** A later option on the same field overwrites an earlier one completely. */
  lemma LaterOptionOverrides(s: Settings, o1: Option, o2: Option)
    requires Target(o1) == Target(o2)
    ensures ApplyOption(ApplyOption(s, o1), o2) == ApplyOption(s, o2)
  {
  }
}
