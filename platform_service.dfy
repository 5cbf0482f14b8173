/** The platform's key/value settings (`platform_settings`), read as text or as a Decimal. */
module PlatformService {
  import opened Wrappers
  import opened Money
  import opened Text
  import opened Decimals
  import opened Store

  /** `get_setting`: the stored value, or `default` when the key has no row. */
  function GetSetting(settings: map<string, string>, key: string, default: Option<string>): Option<string>
  {
    if key in settings then Some(settings[key]) else default
  }

  /**
   * `get_decimal`: the stored value (or `str(default)`) parsed as a Decimal; when it does
   * not parse, `Decimal(str(default))`, which is `default` itself (ParseFormatRoundTrip).
   */
  function GetDecimal(settings: map<string, string>, key: string, default: Dec): Dec
  {
    match GetSetting(settings, key, Some(FormatDec(default)))
    case None => default
    case Some(raw) =>
      match ParseDecimal(raw)
      case Some(d) => d
      case None => default
  }

  /** Without a row for the key, the default comes back, whatever it is. */
  lemma GetDecimalAbsent(settings: map<string, string>, key: string, default: Dec)
    requires key !in settings
    ensures GetDecimal(settings, key, default) == default
  {
    ParseFormatRoundTrip(default);
  }

  /** A stored value that does not parse falls back to the default. */
  lemma GetDecimalUnparsable(settings: map<string, string>, key: string, default: Dec)
    requires key in settings && ParseDecimal(settings[key]).None?
    ensures GetDecimal(settings, key, default) == default
  {
  }

  /** `set_setting`: update the row for `key` in place, or insert it; `value` is already `str(value)`. */
  method SetSetting(db: Db, key: string, value: string)
    modifies db`settings
    ensures db.settings == old(db.settings)[key := value]
  {
    db.settings := db.settings[key := value];
  }

  /** After `set_setting(k, v)`, `get_setting(k)` is `v` and every other key reads as before. */
  lemma SetThenGet(settings: map<string, string>, key: string, value: string, other: string, default: Option<string>)
    ensures GetSetting(settings[key := value], key, default) == Some(value)
    ensures other != key ==> GetSetting(settings[key := value], other, default) == GetSetting(settings, other, default)
  {
  }

  /** Storing `str(d)` and reading it back as a Decimal gives `d`. */
  lemma SetThenGetDecimal(settings: map<string, string>, key: string, d: Dec, default: Dec)
    ensures GetDecimal(settings[key := FormatDec(d)], key, default) == d
  {
    ParseFormatRoundTrip(d);
  }

  /** Storing `str(n)` for a whole number (as the admin form does for the surge threshold) reads back as `n`. */
  lemma SetThenGetWhole(settings: map<string, string>, key: string, n: nat, default: Dec)
    ensures GetDecimal(settings[key := NatToString(n)], key, default) == Dec(n, 0)
  {
    ParseNatString(n);
  }
}
