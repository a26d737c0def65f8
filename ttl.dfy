/** Retention (TTL) resolution for one message and the tenant-profile default. */
module Ttl {
  import opened Wrappers
  import opened Numbers

  const SECONDS_PER_DAY: int := 86400

  /**
   * TimeUnit.DAYS.toSeconds of the tenant profile's default storage TTL in days.
   * The conversion is exact: the seconds are a whole number of days, and they give back
   * the days they were made from.
   */
  function DaysToSeconds(days: int): (seconds: int)
    ensures seconds % SECONDS_PER_DAY == 0
    ensures seconds / SECONDS_PER_DAY == days
  {
    days * SECONDS_PER_DAY
  }

  /** The metadata "TTL" value, absent when the metadata has no such key. */
  function MetadataTtl(metadata: map<string, string>): (ttlValue: Option<string>)
    ensures ttlValue.Some? <==> "TTL" in metadata
    ensures ttlValue.Some? ==> ttlValue.value == metadata["TTL"]
  {
    if "TTL" in metadata then Some(metadata["TTL"]) else None
  }

  /** StringUtils.isEmpty: null or the empty string. */
  function IsEmpty(s: Option<string>): (empty: bool)
    ensures !empty <==> s.Some? && |s.value| > 0
  {
    s.None? || s.value == ""
  }

  /**
   * The TTL of a save request: a non-empty metadata TTL is parsed and wins over the node's
   * default; whichever of the two is chosen, zero stands for the tenant-profile default.
   */
  function ResolveTtl(ttlValue: Option<string>, defaultTtl: int, tenantDefaultTtl: int): (r: Result<int>)
    ensures !IsEmpty(ttlValue) && ParseLong(ttlValue.value).Err? ==> r == ParseLong(ttlValue.value)
    ensures !IsEmpty(ttlValue) && ParseLong(ttlValue.value) == Ok(0) ==> r == Ok(tenantDefaultTtl)
    ensures !IsEmpty(ttlValue) && ParseLong(ttlValue.value).Ok? && ParseLong(ttlValue.value).value != 0 ==>
              r == ParseLong(ttlValue.value)
    ensures IsEmpty(ttlValue) && defaultTtl == 0 ==> r == Ok(tenantDefaultTtl)
    ensures IsEmpty(ttlValue) && defaultTtl != 0 ==> r == Ok(defaultTtl)
  {
    var chosen := if !IsEmpty(ttlValue) then ParseLong(ttlValue.value) else Ok(defaultTtl);
    if chosen.Err? then chosen
    else if chosen.value == 0 then Ok(tenantDefaultTtl)
    else chosen
  }

  /** A message TTL written as a positive long overrides both defaults. */
  lemma MetadataTtlOverrides(n: int, defaultTtl: int, tenantDefaultTtl: int)
    requires 0 < n <= LONG_MAX
    ensures ResolveTtl(Some(Decimal(n)), defaultTtl, tenantDefaultTtl) == Ok(n)
  {
    ParseSignedDecimal(n);
  }

  /**
   * A message TTL of "0" and a node default of 0 without a message TTL cannot be told apart:
   * both resolve to the tenant-profile default.
   */
  lemma ZeroTtlMeansTenantDefault(defaultTtl: int, tenantDefaultTtl: int)
    ensures ResolveTtl(Some("0"), defaultTtl, tenantDefaultTtl) == Ok(tenantDefaultTtl)
    ensures ResolveTtl(Some("0"), defaultTtl, tenantDefaultTtl) == ResolveTtl(None, 0, tenantDefaultTtl)
  {
    ParseSignedDecimal(0);
    assert SignedDecimal(0) == "0";
  }
}
