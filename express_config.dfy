/**
 * `ExpressConfig`: the paging and caching settings of one search, which
 * `reconfigure` adjusts from the request's parameters.
 */
module ExpressConfigs {
  import opened PhpStrings
  import opened PhpValues

  /** The fields of an `ExpressConfig`. */
  datatype ConfigState = ConfigState(
    pagination: bool,
    maxSize: int,
    size: int,
    currentPage: int,
    ssl: bool,
    fullUrl: bool,
    cache: bool,
    cacheConfig: string,
    isToLimitQuery: bool,
    keywords: seq<(string, string)>)

  /** Strings `FILTER_VALIDATE_BOOLEAN` reads as true, and as false (after lower-casing). */
  const TrueWords: seq<string> := ["1", "true", "on", "yes"]
  const FalseWords: seq<string> := ["0", "false", "off", "no", ""]

  /**
   * `isEnabled($v)`: false for null, otherwise `filter_var` with
   * `FILTER_VALIDATE_BOOLEAN` and `FILTER_NULL_ON_FAILURE`, which yields
   * null (here `None`) for anything it does not read as a boolean.
   */
  function IsEnabled(v: Raw): (r: Option<bool>)
    ensures v.Null? || v.Bool? ==> r.Some?
    ensures v.Arr? ==> r.None?
  {
    match v
    case Null => Some(false)
    case Bool(b) => Some(b)
    case Int(i) => if i == 1 then Some(true) else if i == 0 then Some(false) else None
    case Str(s) =>
      if Lower(s) in TrueWords then Some(true)
      else if Lower(s) in FalseWords then Some(false)
      else None
    case Arr(_) => None
  }

  /** `isEnabled` reads back the spellings of a boolean the package itself uses. */
  lemma IsEnabledSpellings(b: bool)
    ensures IsEnabled(Bool(b)) == Some(b)
    ensures IsEnabled(Int(if b then 1 else 0)) == Some(b)
    ensures IsEnabled(Str(if b then "true" else "false")) == Some(b)
    ensures IsEnabled(Str(if b then "TRUE" else "FALSE")) == Some(b)
  {
    assert Lower("true") == "true" && Lower("TRUE") == "true";
    assert Lower("false") == "false" && Lower("FALSE") == "false";
    assert "false" !in TrueWords;
  }

  /** `getReserved($key, $default)`: the keyword configured for `key`, else the default. */
  function GetReserved(keywords: seq<(string, string)>, key: string, default: Option<string>): (r: Option<string>)
    ensures HasKey(keywords, key) ==> r == Some(Lookup(keywords, key))
    ensures !HasKey(keywords, key) ==> r == default
  {
    if HasKey(keywords, key) then Some(Lookup(keywords, key)) else default
  }

  /** The parameter name used for `key`; a missing keyword is null, which PHP uses as the key "". */
  function ReservedKey(keywords: seq<(string, string)>, key: string): string {
    match GetReserved(keywords, key, None)
    case Some(k) => k
    case None => ""
  }

  /** `setSize($size)`: a numeric size capped at the maximum; anything else is ignored. */
  function SetSizeSpec(st: ConfigState, v: Raw): (r: ConfigState)
    ensures IsNumeric(v) ==> r.size <= st.maxSize && r.size <= IntCast(v)
    ensures IsNumeric(v) ==> r.size == IntCast(v) || r.size == st.maxSize
    ensures !IsNumeric(v) ==> r == st
    ensures r == st.(size := r.size)
  {
    if !IsNumeric(v) then st
    else st.(size := if IntCast(v) > st.maxSize then st.maxSize else IntCast(v))
  }

  /** `setCurrentPage($page)`: a numeric page as an integer; anything else is ignored. */
  function SetCurrentPageSpec(st: ConfigState, v: Raw): (r: ConfigState)
    ensures IsNumeric(v) ==> r == st.(currentPage := IntCast(v))
    ensures !IsNumeric(v) ==> r == st
    ensures r == st.(currentPage := r.currentPage)
  {
    if !IsNumeric(v) then st else st.(currentPage := IntCast(v))
  }

  /** `reconfigure($options)`. */
  function ReconfigureSpec(st: ConfigState, options: Entries): ConfigState {
    var sizeKey := ReservedKey(st.keywords, "size");
    var pageKey := ReservedKey(st.keywords, "page");
    var st1 := if HasKey(options, sizeKey) then st.(isToLimitQuery := true) else st;
    var st2 := SetSizeSpec(st1, Coalesce(options, sizeKey, Int(st1.size)));
    var st3 := SetCurrentPageSpec(st2, Coalesce(options, pageKey, Int(1)));
    if IsSet(options, "noPage") then st3.(pagination := false) else st3
  }

  /** `reconfigure` changes only the request-driven fields. */
  lemma ReconfigureFrame(st: ConfigState, options: Entries)
    ensures var r := ReconfigureSpec(st, options);
      r.maxSize == st.maxSize && r.ssl == st.ssl && r.fullUrl == st.fullUrl && r.cache == st.cache &&
      r.cacheConfig == st.cacheConfig && r.keywords == st.keywords
  {
    var sizeKey := ReservedKey(st.keywords, "size");
    var pageKey := ReservedKey(st.keywords, "page");
    var st1 := if HasKey(options, sizeKey) then st.(isToLimitQuery := true) else st;
    var st2 := SetSizeSpec(st1, Coalesce(options, sizeKey, Int(st1.size)));
    var st3 := SetCurrentPageSpec(st2, Coalesce(options, pageKey, Int(1)));
    assert st2 == st1.(size := st2.size);
    assert st3 == st2.(currentPage := st3.currentPage);
  }

  /**
   * The size: a numeric size in the request capped at the maximum, an
   * unusable one ignored, and without one the current size capped again.
   */
  lemma ReconfigureSizeCases(st: ConfigState, options: Entries)
    ensures var k := ReservedKey(st.keywords, "size");
      ReconfigureSpec(st, options).size ==
        if !IsSet(options, k) then (if st.size > st.maxSize then st.maxSize else st.size)
        else if IsNumeric(Lookup(options, k)) then
          (if IntCast(Lookup(options, k)) > st.maxSize then st.maxSize else IntCast(Lookup(options, k)))
        else st.size
  {
  }

  /** A size within the maximum stays within it. */
  lemma ReconfigureCapsSize(st: ConfigState, options: Entries)
    requires st.size <= st.maxSize
    ensures ReconfigureSpec(st, options).size <= ReconfigureSpec(st, options).maxSize
  {
    ReconfigureSizeCases(st, options);
    ReconfigureFrame(st, options);
  }

  /** A size in the request marks the query as limited, and the mark is never cleared. */
  lemma ReconfigureLimitFlag(st: ConfigState, options: Entries)
    ensures ReconfigureSpec(st, options).isToLimitQuery
      == (st.isToLimitQuery || HasKey(options, ReservedKey(st.keywords, "size")))
  {
  }

  /** A size given in the request in decimal is taken, saturated at the integer range and capped at the maximum. */
  lemma ReconfigureSize(st: ConfigState, options: Entries, n: int)
    requires var k := ReservedKey(st.keywords, "size"); HasKey(options, k) && Lookup(options, k) == Str(IntToString(n))
    ensures ReconfigureSpec(st, options).size == if Saturate(n) > st.maxSize then st.maxSize else Saturate(n)
  {
    IntCastOfDecimal(n);
  }

  /** Without a size in the request the current size is kept, capped at the maximum. */
  lemma ReconfigureSizeAbsent(st: ConfigState, options: Entries)
    requires !IsSet(options, ReservedKey(st.keywords, "size"))
    ensures ReconfigureSpec(st, options).size == if st.size > st.maxSize then st.maxSize else st.size
  {
  }

  /**
   * The page: taken from the request when numeric, back to 1 when absent,
   * and left as it was when present but not numeric.
   */
  lemma ReconfigurePage(st: ConfigState, options: Entries)
    ensures var k := ReservedKey(st.keywords, "page");
      ReconfigureSpec(st, options).currentPage ==
        if !IsSet(options, k) then 1
        else if IsNumeric(Lookup(options, k)) then IntCast(Lookup(options, k))
        else st.currentPage
  {
  }

  /** `noPage` switches pagination off; nothing in the request switches it on. */
  lemma ReconfigurePagination(st: ConfigState, options: Entries)
    ensures ReconfigureSpec(st, options).pagination == (st.pagination && !IsSet(options, "noPage"))
  {
  }

  /** Reconfiguring twice with the same options is reconfiguring once. */
  lemma ReconfigureIdempotent(st: ConfigState, options: Entries)
    ensures ReconfigureSpec(ReconfigureSpec(st, options), options) == ReconfigureSpec(st, options)
  {
    var r := ReconfigureSpec(st, options);
    ReconfigureFrame(st, options);
    ReconfigureFrame(r, options);
    ReconfigureSizeCases(st, options);
    ReconfigureSizeCases(r, options);
    ReconfigurePage(st, options);
    ReconfigurePage(r, options);
    ReconfigureLimitFlag(st, options);
    ReconfigureLimitFlag(r, options);
    ReconfigurePagination(st, options);
    ReconfigurePagination(r, options);
  }

  class ExpressConfig {
    var pagination: bool
    var maxSize: int
    var size: int
    var currentPage: int
    var ssl: bool
    var fullUrl: bool
    var cache: bool
    var cacheConfig: string
    var isToLimitQuery: bool
    var keywords: seq<(string, string)>

    function State(): ConfigState
      reads this
    {
      ConfigState(pagination, maxSize, size, currentPage, ssl, fullUrl, cache, cacheConfig, isToLimitQuery, keywords)
    }

    /** The given settings, on page 1, not limited, with no keywords. */
    constructor (pagination: bool, maxSize: int, size: int, ssl: bool, fullUrl: bool, cache: bool, cacheConfig: string)
      ensures State() == ConfigState(pagination, maxSize, size, 1, ssl, fullUrl, cache, cacheConfig, false, [])
    {
      this.pagination, this.maxSize, this.size, this.ssl := pagination, maxSize, size, ssl;
      this.fullUrl, this.cache, this.cacheConfig := fullUrl, cache, cacheConfig;
      currentPage, isToLimitQuery, keywords := 1, false, [];
    }

    /** The object `factory` builds: the component's settings and its reserved keywords. */
    constructor Factory(pagination: bool, maxSize: int, size: int, ssl: bool, fullUrl: bool, cache: bool,
                        cacheConfig: string, reserved: seq<(string, string)>)
      ensures State() == ConfigState(pagination, maxSize, size, 1, ssl, fullUrl, cache, cacheConfig, false, reserved)
    {
      this.pagination, this.maxSize, this.size, this.ssl := pagination, maxSize, size, ssl;
      this.fullUrl, this.cache, this.cacheConfig := fullUrl, cache, cacheConfig;
      currentPage, isToLimitQuery, keywords := 1, false, reserved;
    }

    method Reconfigure(options: Entries)
      modifies this
      ensures State() == ReconfigureSpec(old(State()), options)
    {
      var sizeKey := ReservedKey(keywords, "size");
      var pageKey := ReservedKey(keywords, "page");
      if HasKey(options, sizeKey) {
        isToLimitQuery := true;
      }
      SetSize(Coalesce(options, sizeKey, Int(size)));
      SetCurrentPage(Coalesce(options, pageKey, Int(1)));
      if IsSet(options, "noPage") {
        var _ := SetPagination(Bool(false));
      }
    }

    /** `setPagination($v)`: the value `isEnabled` reads; null is refused by the property's `bool` type. */
    method SetPagination(v: Raw) returns (status: Status)
      modifies this
      ensures match IsEnabled(v)
        case Some(b) => status == Ok && State() == old(State()).(pagination := b)
        case None => status == Fail(TypeError) && State() == old(State())
    {
      var r := IsEnabled(v);
      if r.Some? {
        pagination := r.value;
        status := Ok;
      } else {
        status := Fail(TypeError);
      }
    }

    method SetMaxSize(n: int)
      modifies this
      ensures State() == old(State()).(maxSize := n)
    {
      maxSize := n;
    }

    method SetSize(v: Raw)
      modifies this
      ensures State() == SetSizeSpec(old(State()), v)
    {
      if IsNumeric(v) {
        size := if IntCast(v) > maxSize then maxSize else IntCast(v);
      }
    }

    method SetCurrentPage(v: Raw)
      modifies this
      ensures State() == SetCurrentPageSpec(old(State()), v)
    {
      if IsNumeric(v) {
        currentPage := IntCast(v);
      }
    }

    method SetSsl(b: bool)
      modifies this
      ensures State() == old(State()).(ssl := b)
    {
      ssl := b;
    }

    method SetFullUrl(b: bool)
      modifies this
      ensures State() == old(State()).(fullUrl := b)
    {
      fullUrl := b;
    }

    method SetCache(b: bool)
      modifies this
      ensures State() == old(State()).(cache := b)
    {
      cache := b;
    }

    method SetCacheConfig(name: string)
      modifies this
      ensures State() == old(State()).(cacheConfig := name)
    {
      cacheConfig := name;
    }
  }
}
