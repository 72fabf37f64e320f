/**
 * The credential file: `load_credentials` reads `key=value` lines into a
 * dictionary, and `main` checks that the five required entries are present
 * and puts a country prefix on a bare ten-digit mobile number.
 */
module Credentials {
  import opened Wrappers
  import opened Text

  datatype Entry = Entry(key: string, value: string)

  /** A value is trimmed, then stripped of surrounding `"` characters, then of surrounding `'` characters. */
  function CleanValue(raw: string): (v: string)
    ensures v != [] ==> v[0] != '\'' && v[|v| - 1] != '\''
  {
    Strip(Strip(Strip(raw, Whitespace), {'"'}), {'\''})
  }

  /**
   * What one line of the file contributes: nothing for a line that, once
   * trimmed, starts with `#` or has no `=`; otherwise the trimmed text before
   * the first `=` as key and the cleaned remainder as value.
   */
  function ParseLine(line: string): (e: Option<Entry>)
    ensures e.None? <==> '=' !in Strip(line, Whitespace) || StartsWith(Strip(line, Whitespace), "#")
    ensures e.Some? ==> '=' !in e.value.key
    ensures e.Some? ==> e.value.key == [] || (e.value.key[0] !in Whitespace && e.value.key[|e.value.key| - 1] !in Whitespace)
  {
    var s := Strip(line, Whitespace);
    if '=' in s && !StartsWith(s, "#") then
      var (k, v) := SplitFirst(s, '=');
      Some(Entry(Strip(k, Whitespace), CleanValue(v)))
    else
      None
  }

  /** The key is what precedes the first `=`, and the value is all that follows it, `=` characters included. */
  lemma ParseLineSplitsAtFirstEquals(line: string, before: string, after: string)
    requires Strip(line, Whitespace) == before + "=" + after
    requires '=' !in before
    requires !StartsWith(before + "=" + after, "#")
    ensures ParseLine(line) == Some(Entry(Strip(before, Whitespace), CleanValue(after)))
  {
    SplitFirstUnique(before + "=" + after, '=', before, after);
  }

  /** Each line of the file, parsed. */
  function ParseLines(lines: seq<string>): seq<Option<Entry>> {
    seq(|lines|, i requires 0 <= i < |lines| => ParseLine(lines[i]))
  }

  /** Line `i` of the parsed file is the parse of line `i`. */
  lemma ParseLinesAt(lines: seq<string>, i: int)
    requires 0 <= i < |lines|
    ensures |ParseLines(lines)| == |lines| && ParseLines(lines)[i] == ParseLine(lines[i])
  {
  }

  /** `creds[k] = v` for a parsed line; nothing for a skipped one. */
  function Store(creds: map<string, string>, entry: Option<Entry>): map<string, string> {
    match entry
    case None => creds
    case Some(e) => creds[e.key := e.value]
  }

  /** The dictionary after the parsed lines have been stored, in order, into `creds`. */
  function StoreAll(creds: map<string, string>, entries: seq<Option<Entry>>): map<string, string>
    decreases |entries|
  {
    if entries == [] then creds else StoreAll(Store(creds, entries[0]), entries[1..])
  }

  /** The dictionary `load_credentials` returns for a file with these lines. */
  function Loaded(lines: seq<string>): map<string, string> {
    StoreAll(map[], ParseLines(lines))
  }

  /** `load_credentials` over the lines of the file. */
  method LoadCredentials(lines: seq<string>) returns (creds: map<string, string>)
    ensures creds == Loaded(lines)
  {
    ghost var entries := ParseLines(lines);
    creds := map[];
    for i := 0 to |lines|
      invariant StoreAll(creds, entries[i..]) == Loaded(lines)
    {
      assert entries[i..][1..] == entries[i + 1..];
      match ParseLine(lines[i]) {
        case Some(e) =>
          creds := creds[e.key := e.value];
        case None =>
      }
    }
    assert entries[|lines|..] == [];
  }

  /** Parsed line `entry` stores a value under `key`. */
  predicate Defines(entry: Option<Entry>, key: string) {
    entry.Some? && entry.value.key == key
  }

  /** A key ends up in the dictionary exactly when it was there already or some line defines it. */
  lemma {:induction false} StoredKeys(creds: map<string, string>, entries: seq<Option<Entry>>, key: string)
    ensures key in StoreAll(creds, entries) <==> key in creds || exists i :: 0 <= i < |entries| && Defines(entries[i], key)
    decreases |entries|
  {
    if entries != [] {
      StoredKeys(Store(creds, entries[0]), entries[1..], key);
      if exists i :: 0 <= i < |entries[1..]| && Defines(entries[1..][i], key) {
        var i :| 0 <= i < |entries[1..]| && Defines(entries[1..][i], key);
        assert Defines(entries[i + 1], key);
      }
      if exists i :: 0 <= i < |entries| && Defines(entries[i], key) {
        var i :| 0 <= i < |entries| && Defines(entries[i], key);
        if i > 0 {
          assert Defines(entries[1..][i - 1], key);
        }
      }
    }
  }

  /** A key is loaded from a file exactly when one of its lines defines it. */
  lemma LoadedKeys(lines: seq<string>, key: string)
    ensures key in Loaded(lines) <==> exists i :: 0 <= i < |lines| && Defines(ParseLine(lines[i]), key)
  {
    var entries := ParseLines(lines);
    assert |entries| == |lines|;
    StoredKeys(map[], entries, key);
    if key in Loaded(lines) {
      var i :| 0 <= i < |entries| && Defines(entries[i], key);
      ParseLinesAt(lines, i);
    }
    if exists i :: 0 <= i < |lines| && Defines(ParseLine(lines[i]), key) {
      var i :| 0 <= i < |lines| && Defines(ParseLine(lines[i]), key);
      ParseLinesAt(lines, i);
    }
  }

  /** Lines that do not define `key` leave its entry as it was. */
  lemma {:induction false} UntouchedKey(creds: map<string, string>, entries: seq<Option<Entry>>, key: string)
    requires key in creds
    requires forall i :: 0 <= i < |entries| ==> !Defines(entries[i], key)
    ensures key in StoreAll(creds, entries) && StoreAll(creds, entries)[key] == creds[key]
    decreases |entries|
  {
    if entries != [] {
      assert !Defines(entries[0], key);
      UntouchedKey(Store(creds, entries[0]), entries[1..], key);
    }
  }

  /** When a key is defined more than once, the last definition wins. */
  lemma {:induction false} LastDefinitionWins(creds: map<string, string>, entries: seq<Option<Entry>>, i: nat)
    requires i < |entries| && entries[i].Some?
    requires forall j :: i < j < |entries| ==> !Defines(entries[j], entries[i].value.key)
    ensures entries[i].value.key in StoreAll(creds, entries)
    ensures StoreAll(creds, entries)[entries[i].value.key] == entries[i].value.value
    decreases |entries|
  {
    if i == 0 {
      UntouchedKey(Store(creds, entries[0]), entries[1..], entries[0].value.key);
    } else {
      LastDefinitionWins(Store(creds, entries[0]), entries[1..], i - 1);
    }
  }

  /** In a file, the value loaded for a key is the one on the last line that defines it. */
  lemma LoadedLastDefinition(lines: seq<string>, i: nat)
    requires i < |lines|
    ensures
      (ParseLine(lines[i]).Some? &&
       forall j :: i < j < |lines| ==> !Defines(ParseLine(lines[j]), ParseLine(lines[i]).value.key))
      ==>
      (ParseLine(lines[i]).value.key in Loaded(lines) &&
       Loaded(lines)[ParseLine(lines[i]).value.key] == ParseLine(lines[i]).value.value)
  {
    var entries := ParseLines(lines);
    ParseLinesAt(lines, i);
    if entries[i].Some? && forall j :: i < j < |lines| ==> !Defines(ParseLine(lines[j]), entries[i].value.key) {
      forall j | i < j < |entries|
        ensures !Defines(entries[j], entries[i].value.key)
      {
        ParseLinesAt(lines, j);
      }
      LastDefinitionWins(map[], entries, i);
    }
  }

  /** Storing a skipped line between two runs of lines changes nothing. */
  lemma {:induction false} SkippedEntryIgnored(creds: map<string, string>, before: seq<Option<Entry>>, after: seq<Option<Entry>>)
    ensures StoreAll(creds, before + [None] + after) == StoreAll(creds, before + after)
    decreases |before|
  {
    if before == [] {
      assert ([] + [None] + after)[1..] == after;
      assert [] + after == after;
    } else {
      assert (before + [None] + after)[1..] == before[1..] + [None] + after;
      assert (before + after)[1..] == before[1..] + after;
      SkippedEntryIgnored(Store(creds, before[0]), before[1..], after);
    }
  }

  lemma ParseLinesAppend(a: seq<string>, b: seq<string>)
    ensures ParseLines(a + b) == ParseLines(a) + ParseLines(b)
  {
    var l, r := ParseLines(a + b), ParseLines(a) + ParseLines(b);
    assert |l| == |r|;
    forall i | 0 <= i < |l| ensures l[i] == r[i] {
      if i < |a| {
        assert (a + b)[i] == a[i];
      } else {
        assert (a + b)[i] == b[i - |a|];
      }
    }
  }

  /** Storing a run of lines and then one more line stores that line into the dictionary of the run. */
  lemma {:induction false} StoreAllAppend(creds: map<string, string>, entries: seq<Option<Entry>>, entry: Option<Entry>)
    ensures StoreAll(creds, entries + [entry]) == Store(StoreAll(creds, entries), entry)
    decreases |entries|
  {
    if entries == [] {
      assert [] + [entry] == [entry];
      assert [entry][1..] == [];
    } else {
      assert (entries + [entry])[1..] == entries[1..] + [entry];
      StoreAllAppend(Store(creds, entries[0]), entries[1..], entry);
    }
  }

  /**
   * The file is read line by line from an empty dictionary: no lines load
   * nothing, and one more line applies its parse to what the earlier lines loaded.
   */
  lemma LoadedExtends(lines: seq<string>, line: string)
    ensures Loaded([]) == map[]
    ensures Loaded(lines + [line]) == Store(Loaded(lines), ParseLine(line))
  {
    ParseLinesAppend(lines, [line]);
    assert ParseLines([line]) == [ParseLine(line)];
    StoreAllAppend(map[], ParseLines(lines), ParseLine(line));
  }

  /** A comment line, or one without `=`, can be removed from the file without changing what is loaded. */
  lemma SkippedLineIgnored(before: seq<string>, line: string, after: seq<string>)
    requires ParseLine(line).None?
    ensures Loaded(before + [line] + after) == Loaded(before + after)
  {
    ParseLinesAppend(before, [line]);
    ParseLinesAppend(before + [line], after);
    ParseLinesAppend(before, after);
    assert ParseLines([line]) == [None];
    SkippedEntryIgnored(map[], ParseLines(before), ParseLines(after));
  }

  const ConsumerKeyName := "KOTAK_CONSUMER_KEY"
  const MobileName := "KOTAK_MOBILE_NUMBER"
  const UccName := "KOTAK_UCC"
  const MpinName := "KOTAK_MPIN"
  const TotpSecretName := "KOTAK_TOTP_SECRET"
  const NeoFinKeyName := "KOTAK_NEO_FIN_KEY"
  const DefaultNeoFinKey := "neotradeapi"

  /** The settings `main` takes from the credential file. */
  datatype Config = Config(consumerKey: string, mobile: string, ucc: string, mpin: string, totpSecret: string, neoFinKey: string)

  /** Present and not empty: what `all([...])` asks of each required entry. */
  predicate Filled(creds: map<string, string>, key: string) {
    key in creds && creds[key] != ""
  }

  /**
   * `main`'s check: the five required entries must all be present and
   * non-empty; the neo-fin-key falls back to the production default only when
   * absent.
   */
  function RequiredConfig(creds: map<string, string>): (r: Option<Config>)
    ensures r.Some? <==>
      Filled(creds, ConsumerKeyName) && Filled(creds, MobileName) && Filled(creds, UccName) &&
      Filled(creds, MpinName) && Filled(creds, TotpSecretName)
    ensures r.Some? ==>
      r.value.consumerKey == creds[ConsumerKeyName] && r.value.mobile == creds[MobileName] &&
      r.value.ucc == creds[UccName] && r.value.mpin == creds[MpinName] &&
      r.value.totpSecret == creds[TotpSecretName]
    ensures r.Some? ==>
      r.value.consumerKey != "" && r.value.mobile != "" && r.value.ucc != "" &&
      r.value.mpin != "" && r.value.totpSecret != ""
    ensures r.Some? ==> r.value.neoFinKey == if NeoFinKeyName in creds then creds[NeoFinKeyName] else DefaultNeoFinKey
  {
    if Filled(creds, ConsumerKeyName) && Filled(creds, MobileName) && Filled(creds, UccName) &&
       Filled(creds, MpinName) && Filled(creds, TotpSecretName)
    then
      Some(Config(
        creds[ConsumerKeyName], creds[MobileName], creds[UccName], creds[MpinName], creds[TotpSecretName],
        if NeoFinKeyName in creds then creds[NeoFinKeyName] else DefaultNeoFinKey))
    else
      None
  }

  /** A bare local number: ten digits and no leading `+`. */
  predicate IsLocalMobile(mobile: string) {
    IsDigits(mobile) && |mobile| == 10 && !StartsWith(mobile, "+")
  }

  /**
   * The number `main` logs in with: a bare local number gets the `+91` country
   * prefix, thirteen characters in all, and anything else is kept; either way
   * the result is no longer a bare local number.
   */
  function FormattedMobile(mobile: string): (m: string)
    ensures IsLocalMobile(mobile) ==> |m| == 13 && StartsWith(m, "+91") && m[3..] == mobile
    ensures !IsLocalMobile(mobile) ==> m == mobile
    ensures !IsLocalMobile(m)
  {
    if IsLocalMobile(mobile) then "+91" + mobile else mobile
  }

  /** Formatting twice gives the same number as formatting once. */
  lemma FormattedMobileIdempotent(mobile: string)
    ensures FormattedMobile(FormattedMobile(mobile)) == FormattedMobile(mobile)
  {
  }

  /** `main`'s reassignment of the mobile number before login. */
  method FormatMobile(mobile: string) returns (formatted: string)
    ensures formatted == FormattedMobile(mobile)
    ensures !IsLocalMobile(formatted)
  {
    formatted := mobile;
    if IsLocalMobile(formatted) {
      formatted := "+91" + formatted;
      assert !IsAsciiDigit(formatted[0]);
    }
  }
}
