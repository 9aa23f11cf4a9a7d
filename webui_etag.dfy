/** The entity tag the web UI module handler's cache filter computes for a
    module request (the `etag` override in `createWebUIModuleServletHandler`).
    Plugin lookup, the pre-release test on versions, the module's script text
    and the 32-bit Murmur3 hash are collaborators and come in as parameters. */
module WebUICache {
  import opened JavaLang

  /** The request path prefix the module name follows. */
  const ModulePrefix := "/webui/module/"

  /** A web UI plugin as the cache filter sees it. */
  datatype WebUIPlugin = WebUIPlugin(name: string, version: string)

  /** A 32-bit hash value (Guava's `HashCode` of `murmur3_32`). */
  type Hash32 = h: int | 0 <= h < 0x1_0000_0000

  /** What `etag` does: return a tag or `null`, or throw because the request URI
      is shorter than the prefix it strips (`substring` out of bounds). */
  datatype ETagOutcome = Returned(tag: Option<string>) | IndexOutOfBounds

  // -----------------------------------------------------------------------
  // Hex rendering of a hash (HashCode.toString)
  // -----------------------------------------------------------------------

  /** The sixteen lower-case hex digits, in order. */
  const HexDigits := "0123456789abcdef"

  /** The digit for `n`, computed from character codes; it is the table entry. */
  function HexDigit(n: int): (c: char)
    requires 0 <= n < 16
    ensures c == HexDigits[n]
  {
    if n < 10 then ('0' as int + n) as char else ('a' as int + n - 10) as char
  }

  function ByteHex(b: int): string
    requires 0 <= b < 256
  {
    [HexDigit(b / 16), HexDigit(b % 16)]
  }

  /** `HashCode.toString()` of a 32-bit hash: its four bytes, least significant
      first, each as two lower-case hex digits. */
  function HashHex(h: Hash32): (r: string)
    ensures |r| == 8
    ensures forall k :: 0 <= k < 8 ==> r[k] in HexDigits
    ensures r[0..2] == ByteHex(h % 256) && r[2..4] == ByteHex(h / 256 % 256)
      && r[4..6] == ByteHex(h / 256 / 256 % 256) && r[6..8] == ByteHex(h / 256 / 256 / 256)
  {
    var r1 := h / 256;
    var r2 := r1 / 256;
    var x0, x1, x2, x3 := ByteHex(h % 256), ByteHex(r1 % 256), ByteHex(r2 % 256), ByteHex(r2 / 256);
    HexQuarters(x0 + x1 + x2 + x3, x0, x1, x2, x3);
    x0 + x1 + x2 + x3
  }

  lemma HexDigitInjective(x: int, y: int)
    requires 0 <= x < 16 && 0 <= y < 16
    ensures HexDigit(x) == HexDigit(y) ==> x == y
  {
  }

  lemma ByteHexInjective(a: int, b: int)
    requires 0 <= a < 256 && 0 <= b < 256
    ensures ByteHex(a) == ByteHex(b) ==> a == b
  {
    if ByteHex(a) == ByteHex(b) {
      assert ByteHex(a)[0] == ByteHex(b)[0] && ByteHex(a)[1] == ByteHex(b)[1];
      HexDigitInjective(a / 16, b / 16);
      HexDigitInjective(a % 16, b % 16);
    }
  }

  lemma DivModDetermine(x: int, y: int)
    requires 0 <= x && 0 <= y
    requires x / 256 == y / 256 && x % 256 == y % 256
    ensures x == y
  {
  }

  lemma HashHexBytes(a: Hash32, b: Hash32)
    requires HashHex(a) == HashHex(b)
    ensures a % 256 == b % 256
    ensures (a / 256) % 256 == (b / 256) % 256
    ensures (a / 256 / 256) % 256 == (b / 256 / 256) % 256
    ensures a / 256 / 256 / 256 == b / 256 / 256 / 256
  {
    ByteHexInjective(a % 256, b % 256);
    ByteHexInjective((a / 256) % 256, (b / 256) % 256);
    ByteHexInjective(a / 256 / 256 % 256, b / 256 / 256 % 256);
    ByteHexInjective(a / 256 / 256 / 256, b / 256 / 256 / 256);
  }

  lemma HexQuarters(s: string, x0: string, x1: string, x2: string, x3: string)
    requires |x0| == 2 && |x1| == 2 && |x2| == 2 && |x3| == 2
    requires s == x0 + x1 + x2 + x3
    ensures s[0..2] == x0 && s[2..4] == x1 && s[4..6] == x2 && s[6..8] == x3
  {
    assert s[6] == x3[0] && s[7] == x3[1];
  }

  /** Distinct hashes render to distinct strings. */
  lemma HashHexInjective(a: Hash32, b: Hash32)
    ensures HashHex(a) == HashHex(b) <==> a == b
  {
    if HashHex(a) == HashHex(b) {
      HashHexBytes(a, b);
      DivModDetermine(a / 256 / 256, b / 256 / 256);
      DivModDetermine(a / 256, b / 256);
      DivModDetermine(a, b);
    }
  }

  // -----------------------------------------------------------------------
  // Entity tags (section 2.3 of RFC 7232)
  // -----------------------------------------------------------------------

  /** `etagc = %x21 / %x23-7E / obs-text`: visible characters except the double quote. */
  predicate IsETagChar(c: char) {
    c == '!' || ('#' <= c <= '~') || ('\U{80}' <= c <= '\U{FF}')
  }

  /** `opaque-tag = DQUOTE *etagc DQUOTE`. */
  predicate IsQuotedTag(s: string) {
    |s| >= 2 && s[0] == '"' && s[|s| - 1] == '"'
    && forall k :: 1 <= k < |s| - 1 ==> IsETagChar(s[k])
  }

  /** `weak = %x57.2F` ("W/"), case-sensitive. */
  predicate HasWeakPrefix(s: string) {
    |s| >= 2 && s[0] == 'W' && s[1] == '/'
  }

  /** `entity-tag = [ weak ] opaque-tag`. */
  predicate IsEntityTag(s: string) {
    IsQuotedTag(s) || (HasWeakPrefix(s) && IsQuotedTag(s[2..]))
  }

  /** A strong tag: the opaque form, quoted. */
  function StrongTag(content: string): string {
    "\"" + content + "\""
  }

  /** A weak tag: `W/` before the quoted opaque form. */
  function WeakTag(content: string): string {
    "W/" + StrongTag(content)
  }

  predicate AllETagChars(s: string) {
    forall k :: 0 <= k < |s| ==> IsETagChar(s[k])
  }

  lemma StrongTagWellFormed(content: string)
    requires AllETagChars(content)
    ensures IsQuotedTag(StrongTag(content)) && !HasWeakPrefix(StrongTag(content))
  {
    var t := StrongTag(content);
    assert forall k :: 1 <= k < |t| - 1 ==> t[k] == content[k - 1];
  }

  lemma WeakTagWellFormed(content: string)
    requires AllETagChars(content)
    ensures IsEntityTag(WeakTag(content)) && HasWeakPrefix(WeakTag(content))
  {
    StrongTagWellFormed(content);
    assert WeakTag(content)[2..] == StrongTag(content);
  }

  lemma HashHexIsETagChars(h: Hash32)
    ensures AllETagChars(HashHex(h))
  {
  }

  // -----------------------------------------------------------------------
  // etag
  // -----------------------------------------------------------------------

  /** The `etag` override: the module name is the request URI after the prefix;
      unknown plugin gives `null`; a pre-release gives the quoted hash of the
      module's script; a release gives `W/"name@version"`, with `;raw` added
      when the `process` parameter is present and does not read "true". */
  function ETag(requestURI: string, process: Option<string>, plugins: map<string, WebUIPlugin>,
                isPrerelease: string -> bool, moduleJS: string -> string,
                murmur3: string -> Hash32): (r: ETagOutcome)
    ensures r.IndexOutOfBounds? <==> |requestURI| < |ModulePrefix|
    ensures r.Returned? ==> (r.tag.Some? <==> ModuleName(requestURI) in plugins)
  {
    if |requestURI| < |ModulePrefix| then IndexOutOfBounds
    else
      var name := requestURI[|ModulePrefix|..];
      if name !in plugins then Returned(None)
      else
        var plugin := plugins[name];
        if isPrerelease(plugin.version) then
          Returned(Some(StrongTag(HashHex(murmur3(moduleJS(name))))))
        else
          var processed := process.None? || ParseBoolean(process.value);
          if processed then Returned(Some(WeakTag(plugin.name + "@" + plugin.version)))
          else Returned(Some(WeakTag(plugin.name + "@" + plugin.version + ";raw")))
  }

  /** The module name a request URI designates (defined when the URI is long enough). */
  function ModuleName(requestURI: string): string
    requires |requestURI| >= |ModulePrefix|
  {
    requestURI[|ModulePrefix|..]
  }

  /** A pre-release module gets a strong tag: ten characters, the quoted hex of
      the hash of its script, never with the weak prefix. */
  lemma ETagPrereleaseIsStrong(requestURI: string, process: Option<string>, plugins: map<string, WebUIPlugin>,
                               isPrerelease: string -> bool, moduleJS: string -> string,
                               murmur3: string -> Hash32)
    requires |requestURI| >= |ModulePrefix| && ModuleName(requestURI) in plugins
    requires isPrerelease(plugins[ModuleName(requestURI)].version)
    ensures var r := ETag(requestURI, process, plugins, isPrerelease, moduleJS, murmur3);
      r.Returned? && r.tag.Some? && |r.tag.value| == 10
      && r.tag.value == StrongTag(HashHex(murmur3(moduleJS(ModuleName(requestURI)))))
      && IsQuotedTag(r.tag.value) && !HasWeakPrefix(r.tag.value)
  {
    var h := murmur3(moduleJS(ModuleName(requestURI)));
    HashHexIsETagChars(h);
    StrongTagWellFormed(HashHex(h));
  }

  /** A released module gets a weak tag of its name and version, marked `;raw`
      exactly when `process` is present and does not read "true". */
  lemma ETagReleaseIsWeak(requestURI: string, process: Option<string>, plugins: map<string, WebUIPlugin>,
                          isPrerelease: string -> bool, moduleJS: string -> string,
                          murmur3: string -> Hash32)
    requires |requestURI| >= |ModulePrefix| && ModuleName(requestURI) in plugins
    requires !isPrerelease(plugins[ModuleName(requestURI)].version)
    ensures var p := plugins[ModuleName(requestURI)];
      ETag(requestURI, process, plugins, isPrerelease, moduleJS, murmur3)
      == Returned(Some(WeakTag(p.name + "@" + p.version
                               + (if process.Some? && !ParseBoolean(process.value) then ";raw" else ""))))
  {
    var p := plugins[ModuleName(requestURI)];
    assert p.name + "@" + p.version + "" == p.name + "@" + p.version;
  }

  /** A tag, when there is one, is a well-formed entity tag whenever the plugin's
      name and version use only entity-tag characters; it is weak exactly for a release. */
  lemma ETagIsEntityTag(requestURI: string, process: Option<string>, plugins: map<string, WebUIPlugin>,
                        isPrerelease: string -> bool, moduleJS: string -> string,
                        murmur3: string -> Hash32)
    requires |requestURI| >= |ModulePrefix| && ModuleName(requestURI) in plugins
    requires AllETagChars(plugins[ModuleName(requestURI)].name)
    requires AllETagChars(plugins[ModuleName(requestURI)].version)
    ensures var r := ETag(requestURI, process, plugins, isPrerelease, moduleJS, murmur3);
      r.Returned? && r.tag.Some? && IsEntityTag(r.tag.value)
      && (HasWeakPrefix(r.tag.value) <==> !isPrerelease(plugins[ModuleName(requestURI)].version))
  {
    var p := plugins[ModuleName(requestURI)];
    if isPrerelease(p.version) {
      ETagPrereleaseIsStrong(requestURI, process, plugins, isPrerelease, moduleJS, murmur3);
    } else {
      var base := p.name + "@" + p.version;
      assert AllETagChars(base) by {
        forall k | 0 <= k < |base| ensures IsETagChar(base[k]) {
          if k < |p.name| { assert base[k] == p.name[k]; }
          else if k > |p.name| { assert base[k] == p.version[k - |p.name| - 1]; }
        }
      }
      var raw := base + ";raw";
      assert AllETagChars(raw) by {
        forall k | 0 <= k < |raw| ensures IsETagChar(raw[k]) {
          if k < |base| { assert raw[k] == base[k]; }
        }
      }
      WeakTagWellFormed(base);
      WeakTagWellFormed(raw);
    }
  }

  /** The strong tag follows the script: two computations that differ only in
      the module's script give the same tag exactly when the hashes agree. */
  lemma StrongTagTracksContent(requestURI: string, process: Option<string>, plugins: map<string, WebUIPlugin>,
                               isPrerelease: string -> bool, js1: string -> string, js2: string -> string,
                               murmur3: string -> Hash32)
    requires |requestURI| >= |ModulePrefix| && ModuleName(requestURI) in plugins
    requires isPrerelease(plugins[ModuleName(requestURI)].version)
    ensures ETag(requestURI, process, plugins, isPrerelease, js1, murmur3)
         == ETag(requestURI, process, plugins, isPrerelease, js2, murmur3)
      <==> murmur3(js1(ModuleName(requestURI))) == murmur3(js2(ModuleName(requestURI)))
  {
    var h1 := murmur3(js1(ModuleName(requestURI)));
    var h2 := murmur3(js2(ModuleName(requestURI)));
    if StrongTag(HashHex(h1)) == StrongTag(HashHex(h2)) {
      assert HashHex(h1) == StrongTag(HashHex(h1))[1..9];
      assert HashHex(h2) == StrongTag(HashHex(h2))[1..9];
      HashHexInjective(h1, h2);
    }
  }

  /** The weak tag does not look at the content: for a release, the script and
      the hash play no part. */
  lemma WeakTagIgnoresContent(requestURI: string, process: Option<string>, plugins: map<string, WebUIPlugin>,
                              isPrerelease: string -> bool, js1: string -> string, js2: string -> string,
                              hash1: string -> Hash32, hash2: string -> Hash32)
    requires |requestURI| >= |ModulePrefix| && ModuleName(requestURI) in plugins
    requires !isPrerelease(plugins[ModuleName(requestURI)].version)
    ensures ETag(requestURI, process, plugins, isPrerelease, js1, hash1)
         == ETag(requestURI, process, plugins, isPrerelease, js2, hash2)
  {
  }

  lemma HashHexExample()
    ensures HashHex(0x3412cdab) == "abcd1234"
  {
    assert 0x3412cdab % 256 == 0xab && 0x3412cdab / 256 == 0x3412cd;
    assert 0x3412cd % 256 == 0xcd && 0x3412cd / 256 == 0x3412;
    assert 0x3412 % 256 == 0x12 && 0x3412 / 256 == 0x34;
    assert ByteHex(0xab) == "ab" && ByteHex(0xcd) == "cd";
    assert ByteHex(0x12) == "12" && ByteHex(0x34) == "34";
  }

  /** The worked scenario for a released module `alpha` 1.0. */
  lemma ETagReleaseScenario(isPrerelease: string -> bool, moduleJS: string -> string, murmur3: string -> Hash32)
    requires !isPrerelease("1.0")
    ensures var plugins := map["alpha" := WebUIPlugin("alpha", "1.0")];
      ETag("/webui/module/alpha", None, plugins, isPrerelease, moduleJS, murmur3) == Returned(Some("W/\"alpha@1.0\""))
      && ETag("/webui/module/alpha", Some("TRUE"), plugins, isPrerelease, moduleJS, murmur3) == Returned(Some("W/\"alpha@1.0\""))
      && ETag("/webui/module/alpha", Some("false"), plugins, isPrerelease, moduleJS, murmur3) == Returned(Some("W/\"alpha@1.0;raw\""))
      && ETag("/webui/module/gamma", None, plugins, isPrerelease, moduleJS, murmur3) == Returned(None)
      && ETag("/webui/module", None, plugins, isPrerelease, moduleJS, murmur3) == IndexOutOfBounds
  {
    assert "/webui/module/alpha"[|ModulePrefix|..] == "alpha";
    assert "/webui/module/gamma"[|ModulePrefix|..] == "gamma";
    assert WeakTag("alpha" + "@" + "1.0") == "W/\"alpha@1.0\"";
    assert WeakTag("alpha" + "@" + "1.0" + ";raw") == "W/\"alpha@1.0;raw\"";
  }

  /** The worked scenario for a pre-release module `beta` whose script hashes to 0x3412cdab. */
  lemma ETagPrereleaseScenario(isPrerelease: string -> bool, moduleJS: string -> string, murmur3: string -> Hash32)
    requires isPrerelease("0.1-SNAPSHOT")
    requires murmur3(moduleJS("beta")) == 0x3412cdab
    ensures var plugins := map["beta" := WebUIPlugin("beta", "0.1-SNAPSHOT")];
      ETag("/webui/module/beta", None, plugins, isPrerelease, moduleJS, murmur3) == Returned(Some("\"abcd1234\""))
  {
    assert "/webui/module/beta"[|ModulePrefix|..] == "beta";
    HashHexExample();
    assert StrongTag("abcd1234") == "\"abcd1234\"";
  }
}
