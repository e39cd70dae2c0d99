/** Reading a W3GS_GAMEINFO packet: the game's name and the title of its map. String::
    from_utf8_lossy is a parameter, `text`: every result holds whatever it does to bytes
    that are not well-formed. */
module Gameinfo {
  import opened Basics
  import opened StatString

  const Backslash: Byte := 92
  const W3x: seq<Byte> := [46, 119, 51, 120]
  const W3m: seq<Byte> := [46, 119, 51, 109]

  type Text = seq<Byte> -> seq<Byte>

  datatype Info = Info(name: seq<Byte>, mapTitle: Option<seq<Byte>>)

  /** iter().position(|b| b == 0) */
  function FirstZero(s: seq<Byte>): (r: Option<nat>)
    ensures r.None? <==> NoZero(s)
    ensures r.Some? ==> r.value < |s| && s[r.value] == 0 && NoZero(s[..r.value])
  {
    if s == [] then None
    else if s[0] == 0 then Some(0)
    else
      match FirstZero(s[1..])
      case None =>
        assert s == [s[0]] + s[1..];
        None
      case Some(k) =>
        assert s[..k + 1] == [s[0]] + s[1..][..k];
        Some(k + 1)
  }

  lemma NoZeroPrefix(s: seq<Byte>, k: nat)
    requires k <= |s|
    ensures NoZero(s[..k]) <==> forall j | 0 <= j < k :: s[j] != 0
  {
    if NoZero(s[..k]) {
      forall j | 0 <= j < k ensures s[j] != 0 {
        assert s[..k][j] != 0;
      }
    }
  }

  lemma FirstZeroIs(s: seq<Byte>, k: nat)
    requires k < |s| && s[k] == 0 && NoZero(s[..k])
    ensures FirstZero(s) == Some(k)
  {
    NoZeroPrefix(s, k);
    NoZeroPrefix(s, FirstZero(s).value);
  }

  // --- The map's title: base name without its extensions ---

  /** rsplit_once: what follows the last backslash. */
  function BaseName(path: seq<Byte>): seq<Byte> {
    if path == [] then []
    else if Backslash !in path then path
    else BaseName(path[1..])
  }

  lemma {:induction false} BaseNameAfter(dir: seq<Byte>, base: seq<Byte>)
    requires Backslash !in base
    ensures BaseName(base) == base
    ensures BaseName(dir + [Backslash] + base) == base
    decreases |dir|
  {
    var path := dir + [Backslash] + base;
    assert path[|dir|] == Backslash;
    if dir == [] {
      assert path[1..] == base;
    } else {
      assert path[1..] == dir[1..] + [Backslash] + base;
      BaseNameAfter(dir[1..], base);
    }
  }

  predicate EndsWith(s: seq<Byte>, suffix: seq<Byte>) {
    |suffix| <= |s| && s[|s| - |suffix|..] == suffix
  }

  /** trim_end_matches */
  function TrimEnd(s: seq<Byte>, suffix: seq<Byte>): seq<Byte>
    requires suffix != []
  {
    if EndsWith(s, suffix) then TrimEnd(s[..|s| - |suffix|], suffix) else s
  }

  function Times(s: seq<Byte>, n: nat): seq<Byte> {
    if n == 0 then [] else Times(s, n - 1) + s
  }

  lemma TimesSnoc(t: seq<Byte>, s: seq<Byte>, n: nat)
    ensures t + Times(s, n + 1) == (t + Times(s, n)) + s
  {
  }

  lemma {:induction false} TrimEndOf(t: seq<Byte>, suffix: seq<Byte>, n: nat, s: seq<Byte>)
    requires suffix != [] && !EndsWith(t, suffix) && s == t + Times(suffix, n)
    ensures TrimEnd(s, suffix) == t
    decreases n
  {
    if n == 0 {
      assert s == t;
    } else {
      TimesSnoc(t, suffix, n - 1);
      var shorter := t + Times(suffix, n - 1);
      assert s[..|s| - |suffix|] == shorter && EndsWith(s, suffix);
      TrimEndOf(t, suffix, n - 1, shorter);
    }
  }

  lemma {:induction false} TrimEndShape(s: seq<Byte>, suffix: seq<Byte>) returns (n: nat)
    requires suffix != []
    ensures !EndsWith(TrimEnd(s, suffix), suffix)
    ensures s == TrimEnd(s, suffix) + Times(suffix, n)
    decreases |s|
  {
    if EndsWith(s, suffix) {
      var shorter := s[..|s| - |suffix|];
      n := TrimEndShape(shorter, suffix);
      assert s == shorter + suffix;
      TimesSnoc(TrimEnd(shorter, suffix), suffix, n);
      n := n + 1;
    } else {
      n := 0;
    }
  }

  function MapTitle(path: seq<Byte>): seq<Byte> {
    TrimEnd(TrimEnd(BaseName(path), W3x), W3m)
  }

  /** path is dir, a backslash when there is one, the title, .w3m runs, then .w3x runs. */
  ghost predicate Titled(path: seq<Byte>, dir: Option<seq<Byte>>, title: seq<Byte>, m: nat, n: nat) {
    && var w3m, w3x: seq<Byte> := [46, 119, 51, 109], [46, 119, 51, 120];
    && var base := title + Times(w3m, m) + Times(w3x, n);
    && 92 !in base
    && path == (if dir.Some? then dir.value + [92] + base else base)
    && !EndsWith(title, w3m)
    && !EndsWith(title + Times(w3m, m), w3x)
  }

  /** The title is the only string that fits such a reading of the path. */
  lemma TitleIsUnique(path: seq<Byte>, dir: Option<seq<Byte>>, title: seq<Byte>, m: nat, n: nat)
    requires Titled(path, dir, title, m, n)
    ensures MapTitle(path) == title
  {
    BaseNameAfter(if dir.Some? then dir.value else [], title + Times(W3m, m) + Times(W3x, n));
    TrimEndOf(title + Times(W3m, m), W3x, n, title + Times(W3m, m) + Times(W3x, n));
    TrimEndOf(title, W3m, m, title + Times(W3m, m));
  }

  lemma {:induction false} BaseNameSplit(path: seq<Byte>) returns (dir: Option<seq<Byte>>)
    ensures Backslash !in BaseName(path)
    ensures path == if dir.Some? then dir.value + [Backslash] + BaseName(path) else BaseName(path)
    decreases |path|
  {
    if Backslash !in path {
      dir := None;
    } else {
      dir := BaseNameSplit(path[1..]);
      if dir.Some? {
        assert path == ([path[0]] + dir.value) + [Backslash] + BaseName(path);
        dir := Some([path[0]] + dir.value);
      } else {
        assert path[0] == Backslash;
        dir := Some([]);
      }
    }
  }

  lemma TitleExists(path: seq<Byte>) returns (dir: Option<seq<Byte>>, m: nat, n: nat)
    ensures Titled(path, dir, MapTitle(path), m, n)
  {
    dir := BaseNameSplit(path);
    n := TrimEndShape(BaseName(path), W3x);
    m := TrimEndShape(TrimEnd(BaseName(path), W3x), W3m);
  }

  // --- The packet ---

  /** The text after the 13 settings bytes, up to its terminator or the end. */
  function MapPath(plain: seq<Byte>): seq<Byte>
    requires |plain| >= 14
  {
    match FirstZero(plain[13..])
    case Some(k) => plain[13..13 + k]
    case None => plain[13..]
  }

  function MapTitleAt(text: Text, data: seq<Byte>, start: nat): Option<seq<Byte>> {
    if start >= |data| then None
    else
      match FirstZero(data[start..])
      case None => None
      case Some(end) =>
        if end == 0 then None
        else
          var plain := Decode(data[start..][..end]);
          if |plain| < 14 then None else Some(MapTitle(text(MapPath(plain))))
  }

  function ParseGameinfo(text: Text, data: seq<Byte>): Option<Info> {
    if |data| < 21 || data[0] != 0xF7 || data[1] != 0x30 then None
    else
      match FirstZero(data[20..])
      case None => None
      case Some(nameLen) => Some(Info(text(data[20..20 + nameLen]), MapTitleAt(text, data, 20 + nameLen + 2)))
  }

  /** decode_stat_string as written. */
  method DecodeStatString(text: Text, data: seq<Byte>, start: nat) returns (r: Option<seq<Byte>>)
    ensures r == MapTitleAt(text, data, start)
  {
    if start >= |data| {
      return None;
    }
    var statEnd := FirstZero(data[start..]);
    if statEnd.None? {
      return None;
    }
    var encoded := data[start..][..statEnd.value];
    if |encoded| == 0 {
      return None;
    }
    var decoded := DecodeLoop(encoded);
    if |decoded| < 14 {
      return None;
    }
    return Some(MapTitle(text(MapPath(decoded))));
  }

  /** A map title is found exactly when a terminated string of at least 16 bytes starts there. */
  lemma MapTitleFound(text: Text, data: seq<Byte>, start: nat)
    ensures MapTitleAt(text, data, start).Some? <==>
      start + 16 < |data| && NoZero(data[start..start + 16]) && !NoZero(data[start..])
  {
    if start < |data| && !NoZero(data[start..]) {
      var tail := data[start..];
      var end := FirstZero(tail).value;
      if end >= 16 {
        assert data[start..start + 16] == tail[..end][..16];
      } else {
        assert start + 16 < |data| ==> data[start..start + 16][end] == 0;
      }
    }
  }

  /** A packet is refused exactly when it is short, has the wrong opening bytes, or its
      name is not terminated. */
  lemma Refused(text: Text, data: seq<Byte>)
    ensures ParseGameinfo(text, data).None? <==>
      |data| < 21 || data[0] != 0xF7 || data[1] != 0x30 || NoZero(data[20..])
  {
  }

  function Packet(header: seq<Byte>, name: seq<Byte>, separator: Byte, encoded: seq<Byte>, rest: seq<Byte>): seq<Byte> {
    header + name + [0, separator] + encoded + [0] + rest
  }

  /** What a parser of the packet sees of its parts. */
  lemma PacketParts(header: seq<Byte>, name: seq<Byte>, separator: Byte, encoded: seq<Byte>, rest: seq<Byte>)
    requires |header| == 20 && NoZero(name) && NoZero(encoded)
    ensures var p := Packet(header, name, separator, encoded, rest);
      && FirstZero(p[20..]) == Some(|name|)
      && p[20..20 + |name|] == name
      && FirstZero(p[20 + |name| + 2..]) == Some(|encoded|)
      && p[20 + |name| + 2..][..|encoded|] == encoded
  {
    var p := Packet(header, name, separator, encoded, rest);
    assert p[20..] == name + [0, separator] + encoded + [0] + rest;
    assert p[20..][..|name|] == name;
    FirstZeroIs(p[20..], |name|);
    var stat := p[20 + |name| + 2..];
    assert stat == encoded + [0] + rest;
    assert stat[..|encoded|] == encoded;
    FirstZeroIs(stat, |encoded|);
  }

  /** Building a packet with any legal masks and reading it gives the name and the map's
      title back, whatever else the packet carries: the settings, the text after the map
      path (nothing at all, or a terminator followed by anything) and the trailing bytes. */
  lemma GameinfoRoundTrip(text: Text, header: seq<Byte>, name: seq<Byte>, separator: Byte, settings: seq<Byte>,
                          path: seq<Byte>, tail: seq<Byte>, masks: seq<Byte>, rest: seq<Byte>)
    requires |header| == 20 && header[0] == 0xF7 && header[1] == 0x30
    requires NoZero(name) && |settings| == 13 && NoZero(path)
    requires if tail == [] then path != [] else tail[0] == 0
    requires MasksFor(settings + path + tail, masks)
    ensures ParseGameinfo(text, Packet(header, name, separator, Encode(settings + path + tail, masks), rest))
         == Some(Info(text(name), Some(MapTitle(text(path)))))
  {
    var encoded := Encode(settings + path + tail, masks);
    RoundTrip(settings + path + tail, masks);
    ParsedPacket(text, header, name, separator, encoded, rest);
    PathInPlain(settings, path, tail);
  }

  lemma ParsedPacket(text: Text, header: seq<Byte>, name: seq<Byte>, separator: Byte, encoded: seq<Byte>,
                     rest: seq<Byte>)
    requires |header| == 20 && header[0] == 0xF7 && header[1] == 0x30
    requires NoZero(name) && NoZero(encoded) && |Decode(encoded)| >= 14
    ensures ParseGameinfo(text, Packet(header, name, separator, encoded, rest))
         == Some(Info(text(name), Some(MapTitle(text(MapPath(Decode(encoded)))))))
  {
    PacketParts(header, name, separator, encoded, rest);
  }

  lemma PathInPlain(settings: seq<Byte>, path: seq<Byte>, tail: seq<Byte>)
    requires |settings| == 13 && NoZero(path)
    requires if tail == [] then path != [] else tail[0] == 0
    ensures MapPath(settings + path + tail) == path
  {
    var plain := settings + path + tail;
    assert plain[13..] == path + tail;
    if tail == [] {
      assert path + tail == path;
    } else {
      assert plain[13..][..|path|] == path;
      FirstZeroIs(plain[13..], |path|);
    }
  }

  /** The same for the masks the game itself would choose, which always exist. */
  lemma GameinfoRoundTripGame(text: Text, header: seq<Byte>, name: seq<Byte>, separator: Byte, settings: seq<Byte>,
                              path: seq<Byte>, creator: seq<Byte>, rest: seq<Byte>)
    requires |header| == 20 && header[0] == 0xF7 && header[1] == 0x30
    requires NoZero(name) && |settings| == 13 && NoZero(path)
    ensures var plain := settings + path + ([0] + creator);
      && MasksFor(plain, GameMasks(plain))
      && ParseGameinfo(text, Packet(header, name, separator, Encode(plain, GameMasks(plain)), rest))
         == Some(Info(text(name), Some(MapTitle(text(path)))))
  {
    var plain := settings + path + ([0] + creator);
    GameMasksFit(plain);
    GameinfoRoundTrip(text, header, name, separator, settings, path, [0] + creator, GameMasks(plain), rest);
  }

  predicate Ascii(s: seq<Byte>) {
    forall k | 0 <= k < |s| :: s[k] < 128
  }

  /** In particular ASCII names and paths come back unchanged, as from_utf8_lossy leaves
      ASCII alone. */
  lemma GameinfoRoundTripAscii(text: Text, header: seq<Byte>, name: seq<Byte>, separator: Byte, settings: seq<Byte>,
                               path: seq<Byte>, creator: seq<Byte>, rest: seq<Byte>)
    requires forall s | Ascii(s) :: text(s) == s
    requires |header| == 20 && header[0] == 0xF7 && header[1] == 0x30
    requires NoZero(name) && |settings| == 13 && NoZero(path) && Ascii(name) && Ascii(path)
    ensures var plain := settings + path + ([0] + creator);
      && MasksFor(plain, GameMasks(plain))
      && ParseGameinfo(text, Packet(header, name, separator, Encode(plain, GameMasks(plain)), rest))
         == Some(Info(name, Some(MapTitle(path))))
  {
    GameinfoRoundTripGame(text, header, name, separator, settings, path, creator, rest);
  }
}
