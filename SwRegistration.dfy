/** The page side of the offline layer (src/utils/serviceWorkerRegistration.ts):
    the loopback-host test, registration, the validity check of the worker
    script, the installing worker's state callback and the message that asks
    the worker to cache wiki URLs.

    The browser calls the functions here make (`register`, `addEventListener`,
    `postMessage`, `unregister`, `reload`, the configured callbacks) are
    returned as a list of effects, in the order the code issues them. */
module SwRegistration {
  import opened Basics
  import ServiceWorker

  // ---------------------------------------------------------------------
  // isLocalhost (serviceWorkerRegistration.ts:8-14)

  predicate IsDigit(c: char) {
    '0' <= c <= '9'
  }

  predicate AllDigits(s: string) {
    forall i | 0 <= i < |s| :: IsDigit(s[i])
  }

  /** The decimal value of a string of digits. */
  function DigitsValue(s: string): nat
    requires AllDigits(s)
  {
    if s == [] then 0 else DigitsValue(s[..|s| - 1]) * 10 + (s[|s| - 1] as int - '0' as int)
  }

  /** One octet of the pattern, read alternative by alternative:
      `25[0-5]`, `2[0-4][0-9]` or `[01]?[0-9][0-9]?`. */
  predicate OctetPattern(s: string) {
    (|s| == 3 && s[0] == '2' && s[1] == '5' && '0' <= s[2] <= '5')
    || (|s| == 3 && s[0] == '2' && '0' <= s[1] <= '4' && IsDigit(s[2]))
    || (|s| == 1 && IsDigit(s[0]))
    || (|s| == 2 && IsDigit(s[0]) && IsDigit(s[1]))
    || (|s| == 3 && (s[0] == '0' || s[0] == '1') && IsDigit(s[1]) && IsDigit(s[2]))
  }

  /** The octet alternatives accept exactly the strings of one to three
      decimal digits whose value is at most 255; leading zeros are allowed. */
  lemma OctetPatternIsByte(s: string)
    ensures OctetPattern(s) <==> 1 <= |s| <= 3 && AllDigits(s) && DigitsValue(s) <= 255
  {
    if 1 <= |s| <= 3 && AllDigits(s) {
      var d := seq(|s|, i requires 0 <= i < |s| => s[i] as int - '0' as int);
      assert DigitsValue(s[..0]) == 0;
      assert s[..1][..0] == s[..0];
      assert DigitsValue(s[..1]) == d[0];
      if |s| >= 2 {
        assert s[..2][..1] == s[..1];
        assert DigitsValue(s[..2]) == d[0] * 10 + d[1];
      }
      if |s| == 3 {
        assert s[..3] == s;
        assert s[..2] == s[..|s| - 1];
        assert DigitsValue(s) == d[0] * 100 + d[1] * 10 + d[2];
      } else if |s| == 2 {
        assert s[..2] == s;
      } else {
        assert s[..1] == s;
      }
    }
  }

  /** `s.split(".")`: the pieces between the dots, at least one. */
  function SplitDots(s: string): (parts: seq<string>)
    ensures |parts| >= 1
  {
    if s == [] then [""]
    else
      var rest := SplitDots(s[1..]);
      if s[0] == '.' then [""] + rest else [[s[0]] + rest[0]] + rest[1..]
  }

  /** The inverse of `SplitDots`: the pieces joined with dots. */
  function JoinDots(parts: seq<string>): string
    requires |parts| >= 1
  {
    if |parts| == 1 then parts[0] else parts[0] + "." + JoinDots(parts[1..])
  }

  lemma {:induction false} JoinSplit(s: string)
    ensures JoinDots(SplitDots(s)) == s
    ensures forall i | 0 <= i < |SplitDots(s)| :: '.' !in SplitDots(s)[i]
  {
    if s != [] {
      JoinSplit(s[1..]);
      var rest := SplitDots(s[1..]);
      if s[0] != '.' {
        var parts := SplitDots(s);
        assert parts[1..] == rest[1..];
        if |rest| > 1 {
          assert rest[1..][1..] == rest[2..];
        }
        assert parts[0] == [s[0]] + rest[0];
      }
    }
  }

  lemma {:induction false} SplitJoin(parts: seq<string>)
    requires |parts| >= 1
    requires forall i | 0 <= i < |parts| :: '.' !in parts[i]
    ensures SplitDots(JoinDots(parts)) == parts
    decreases |parts|
  {
    if |parts| == 1 {
      SplitPiece(parts[0], []);
      assert parts[0] + [] == parts[0];
    } else {
      var j := JoinDots(parts[1..]);
      SplitJoin(parts[1..]);
      SplitPiece(parts[0], "." + j);
      assert parts[0] + "." + j == parts[0] + ("." + j);
      assert ("." + j)[1..] == j;
      assert parts == [parts[0]] + parts[1..];
    }
  }

  /** A dot-free piece in front of the rest splits off as it is. */
  lemma {:induction false} SplitPiece(a: string, rest: string)
    requires '.' !in a
    ensures rest == [] ==> SplitDots(a + rest) == [a]
    ensures rest != [] && rest[0] == '.' ==> SplitDots(a + rest) == [a] + SplitDots(rest[1..])
    decreases |a|
  {
    if a == [] {
      assert a + rest == rest;
    } else {
      SplitPiece(a[1..], rest);
      assert (a + rest)[1..] == a[1..] + rest;
      assert [a[0]] + a[1..] == a;
    }
  }

  /** `/^127(?:\.octet){3}$/`: an octet never contains a dot, so the host
      must split at its dots into "127" and three octets. */
  predicate Loopback127(host: string) {
    var parts := SplitDots(host);
    |parts| == 4 && parts[0] == "127"
    && OctetPattern(parts[1]) && OctetPattern(parts[2]) && OctetPattern(parts[3])
  }

  /** The host is "localhost", "[::1]" or a 127.x.y.z address. */
  predicate IsLocalhost(host: string): (b: bool)
    ensures b && host != "localhost" && host != "[::1]" ==>
      var parts := SplitDots(host);
      |parts| == 4 && host == "127." + parts[1] + "." + parts[2] + "." + parts[3]
      && IsByte(parts[1]) && IsByte(parts[2]) && IsByte(parts[3])
  {
    if host == "localhost" || host == "[::1]" then true
    else if Loopback127(host) then LoopbackIsThreeOctets(host); true
    else false
  }

  lemma JoinFour(parts: seq<string>)
    requires |parts| == 4
    ensures JoinDots(parts) == parts[0] + "." + parts[1] + "." + parts[2] + "." + parts[3]
  {
    assert parts[1..][1..] == parts[2..] && parts[2..][1..] == parts[3..];
    assert JoinDots(parts[3..]) == parts[3];
    assert JoinDots(parts[2..]) == parts[2] + "." + parts[3];
    assert JoinDots(parts[1..]) == parts[1] + "." + (parts[2] + "." + parts[3]);
  }

  /** A one- to three-digit decimal number no greater than 255. */
  predicate IsByte(s: string) {
    1 <= |s| <= 3 && AllDigits(s) && DigitsValue(s) <= 255
  }

  /** With dot-free pieces, "127.a.b.c" is a loopback host name exactly
      when a, b and c are bytes written in decimal. */
  lemma LoopbackIff(a: string, b: string, c: string)
    requires '.' !in a && '.' !in b && '.' !in c
    ensures Loopback127("127." + a + "." + b + "." + c) <==> IsByte(a) && IsByte(b) && IsByte(c)
  {
    var parts := ["127", a, b, c];
    SplitJoin(parts);
    JoinFour(parts);
    assert JoinDots(parts) == "127." + a + "." + b + "." + c;
    OctetPatternIsByte(a);
    OctetPatternIsByte(b);
    OctetPatternIsByte(c);
  }

  /** Every loopback host name is "127" and three bytes joined by dots. */
  lemma LoopbackIsThreeOctets(host: string)
    requires Loopback127(host)
    ensures var parts := SplitDots(host);
      host == "127." + parts[1] + "." + parts[2] + "." + parts[3]
      && IsByte(parts[1]) && IsByte(parts[2]) && IsByte(parts[3])
  {
    var parts := SplitDots(host);
    JoinSplit(host);
    JoinFour(parts);
    OctetPatternIsByte(parts[1]);
    OctetPatternIsByte(parts[2]);
    OctetPatternIsByte(parts[3]);
  }

  lemma LoopbackAddress()
    ensures IsLocalhost("127.0.0.1")
  {
    assert DigitsValue("0") == 0 && DigitsValue("1") == 1;
    LoopbackIff("0", "0", "1");
    assert "127." + "0" + "." + "0" + "." + "1" == "127.0.0.1";
  }

  /** Leading zeros are allowed. */
  lemma LoopbackLeadingZeros()
    ensures IsLocalhost("127.001.255.9")
  {
    assert DigitsValue("001") == 1 by {
      assert "001"[..2] == "00" && "00"[..1] == "0";
    }
    assert DigitsValue("255") == 255 by {
      assert "255"[..2] == "25" && "25"[..1] == "2";
    }
    assert DigitsValue("9") == 9;
    LoopbackIff("001", "255", "9");
    assert "127." + "001" + "." + "255" + "." + "9" == "127.001.255.9";
  }

  /** An octet over 255 is refused. */
  lemma LoopbackOctetOver255()
    ensures !IsLocalhost("127.256.0.1")
  {
    assert DigitsValue("256") == 256 by {
      assert "256"[..2] == "25" && "25"[..1] == "2";
    }
    LoopbackIff("256", "0", "1");
    assert "127." + "256" + "." + "0" + "." + "1" == "127.256.0.1";
  }

  // ---------------------------------------------------------------------
  // Effects

  /** Which optional callbacks the configuration provides; an absent
      configuration provides none. */
  datatype Config = Config(onSuccess: bool, onUpdate: bool, onOffline: bool, onOnline: bool)

  const NoConfig := Config(false, false, false, false)

  datatype Effect =
    | CheckScript(url: string)        // checkValidServiceWorker: fetch the script
    | RegisterScript(url: string)     // navigator.serviceWorker.register
    | LogWhenReady                    // the localhost banner once ready
    | ListenOnline
    | ListenOffline
    | CallOnUpdate
    | CallOnSuccess
    | UnregisterAndReload
    | LogOffline
    | CallOnOnline
    | CallOnOffline
    | Post(message: ServiceWorker.Message)
    | UnregisterWhenReady             // registration.unregister() once ready
    | UpdateWhenReady                 // registration.update() once ready

  /** `register(config)` (serviceWorkerRegistration.ts:16-41). On a loopback
      host the script is checked first; elsewhere it is registered at once. */
  function Register(supported: bool, host: string, origin: string): (effects: seq<Effect>)
    ensures !supported ==> effects == []
    ensures supported ==> |effects| >= 3 && effects[|effects| - 2..] == [ListenOnline, ListenOffline]
    ensures supported && IsLocalhost(host) ==>
              effects[0] == CheckScript(origin + "/service-worker.js")
              && RegisterScript(origin + "/service-worker.js") !in effects
    ensures supported && !IsLocalhost(host) ==>
              effects[0] == RegisterScript(origin + "/service-worker.js")
              && CheckScript(origin + "/service-worker.js") !in effects
  {
    if !supported then [] else SupportedRegister(IsLocalhost(host), origin + "/service-worker.js")
  }

  /** The body of `register` once support is established. */
  function SupportedRegister(local: bool, swUrl: string): (effects: seq<Effect>)
    ensures |effects| >= 3 && effects[|effects| - 2..] == [ListenOnline, ListenOffline]
    ensures local ==> effects[0] == CheckScript(swUrl) && RegisterScript(swUrl) !in effects
    ensures !local ==> effects[0] == RegisterScript(swUrl) && CheckScript(swUrl) !in effects
  {
    var start := if local then [CheckScript(swUrl), LogWhenReady] else [RegisterScript(swUrl)];
    start + [ListenOnline, ListenOffline]
  }

  /** The online/offline listeners (serviceWorkerRegistration.ts:33-39). */
  function OnConnectivity(online: bool, config: Config): (effects: seq<Effect>)
    ensures online ==> effects == if config.onOnline then [CallOnOnline] else []
    ensures !online ==> effects == if config.onOffline then [CallOnOffline] else []
  {
    if online then (if config.onOnline then [CallOnOnline] else [])
    else (if config.onOffline then [CallOnOffline] else [])
  }

  /** The installing worker's `onstatechange` (serviceWorkerRegistration.ts:47-63).
      `installing` is the state of `registration.installing`, `None` when it
      is null. */
  function OnStateChange(installing: Option<string>, hasController: bool, config: Config): (effects: seq<Effect>)
    ensures |effects| <= 1
    ensures CallOnUpdate in effects <==> installing == Some("installed") && hasController && config.onUpdate
    ensures CallOnSuccess in effects <==> installing == Some("installed") && !hasController && config.onSuccess
    ensures forall e | e in effects :: e == CallOnUpdate || e == CallOnSuccess
  {
    match installing
    case None => []
    case Some(state) =>
      if state != "installed" then []
      else if hasController then (if config.onUpdate then [CallOnUpdate] else [])
      else (if config.onSuccess then [CallOnSuccess] else [])
  }

  /** What fetching the worker script produced. */
  datatype ScriptFetch = Fetched(status: int, contentType: Option<string>) | FetchFailed

  /** `checkValidServiceWorker` (serviceWorkerRegistration.ts:75-99). */
  function CheckValidServiceWorker(fetched: ScriptFetch, swUrl: string): (effects: seq<Effect>)
    ensures |effects| == 1
    ensures effects == [UnregisterAndReload] <==>
      fetched.Fetched? && (fetched.status == 404 ||
        (fetched.contentType.Some? && !Contains(fetched.contentType.value, "javascript")))
    ensures effects == [LogOffline] <==> fetched.FetchFailed?
    ensures (fetched.Fetched? && fetched.status != 404 &&
             !(fetched.contentType.Some? && !Contains(fetched.contentType.value, "javascript")))
            ==> effects == [RegisterScript(swUrl)]
  {
    match fetched
    case FetchFailed => [LogOffline]
    case Fetched(status, contentType) =>
      if status == 404 || (contentType.Some? && !Contains(contentType.value, "javascript")) then [UnregisterAndReload]
      else [RegisterScript(swUrl)]
  }

  /** A missing content type does not count against the script. */
  lemma MissingContentTypeRegisters(swUrl: string)
    ensures CheckValidServiceWorker(Fetched(200, None), swUrl) == [RegisterScript(swUrl)]
    ensures CheckValidServiceWorker(Fetched(200, Some("text/javascript")), swUrl) == [RegisterScript(swUrl)]
  {
    var ct := "text/javascript";
    assert ct[5..15] == "javascript";
    assert OccursAt(ct, "javascript", 5);
  }

  /** `precacheWikiContent(urls)` (serviceWorkerRegistration.ts:113-120). */
  function PrecacheWikiContent(supported: bool, hasController: bool, urls: seq<string>): (effects: seq<Effect>)
    ensures supported && hasController ==>
      effects == [Post(ServiceWorker.Data("CACHE_URLS", Some(urls)))]
    ensures !(supported && hasController) ==> effects == []
  {
    if supported && hasController then [Post(ServiceWorker.Data("CACHE_URLS", Some(urls)))] else []
  }

  /** `unregister()` (serviceWorkerRegistration.ts:101-111): once the worker
      is ready its registration is removed; the page is not reloaded. */
  function Unregister(supported: bool): (effects: seq<Effect>)
    ensures supported <==> effects == [UnregisterWhenReady]
    ensures !supported <==> effects == []
  {
    if supported then [UnregisterWhenReady] else []
  }

  /** `checkForUpdates()` (serviceWorkerRegistration.ts:122-128): once the
      worker is ready the registration is asked to update. */
  function CheckForUpdates(supported: bool): (effects: seq<Effect>)
    ensures supported <==> effects == [UpdateWhenReady]
    ensures !supported <==> effects == []
  {
    if supported then [UpdateWhenReady] else []
  }

  /** Without service-worker support none of the exported entry points does
      anything; with it, each does something. */
  lemma NoSupportNoEffects(host: string, origin: string, hasController: bool, urls: seq<string>)
    ensures Register(false, host, origin) == []
    ensures Unregister(false) == [] && CheckForUpdates(false) == []
    ensures PrecacheWikiContent(false, hasController, urls) == []
    ensures Register(true, host, origin) != [] && Unregister(true) != [] && CheckForUpdates(true) != []
  {
  }
}
