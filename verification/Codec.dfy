/** The text form of a health event on the wire: the URL, a bar, the status. */
module Codec {
  import opened Common

  const BAR: char := '|'

  /** Splits at every bar; a text without one is a single field. */
  function Split(s: string): (parts: seq<string>)
    ensures |parts| > 0
  {
    if s == "" then [""]
    else
      var rest := Split(s[1..]);
      if s[0] == BAR then [""] + rest else [[s[0]] + rest[0]] + rest[1..]
  }

  function Joined(parts: seq<string>): string
    requires |parts| > 0
  {
    if |parts| == 1 then parts[0] else parts[0] + [BAR] + Joined(parts[1..])
  }

  function Encode(url: string, status: string): string {
    url + [BAR] + status
  }

  function Decode(payload: string): Option<(string, string)> {
    var parts := Split(payload);
    if |parts| != 2 then None else Some((parts[0], parts[1]))
  }

  function Bars(s: string): nat {
    if s == "" then 0 else (if s[0] == BAR then 1 else 0) + Bars(s[1..])
  }

  /** Splitting loses nothing, puts one boundary at every bar, and leaves no bar inside a field. */
  lemma {:induction false} SplitProperties(s: string)
    ensures Joined(Split(s)) == s
    ensures |Split(s)| == Bars(s) + 1
    ensures forall k :: 0 <= k < |Split(s)| ==> BAR !in Split(s)[k]
  {
    if s != "" {
      SplitProperties(s[1..]);
      var rest := Split(s[1..]);
      if s[0] == BAR {
        assert ([""] + rest)[1..] == rest;
        assert "" + [BAR] + Joined(rest) == s;
      } else {
        var parts := [[s[0]] + rest[0]] + rest[1..];
        assert parts[1..] == rest[1..];
        assert [s[0]] + Joined(rest) == s;
        if |rest| > 1 {
          assert [s[0]] + rest[0] + [BAR] + Joined(rest[1..]) == [s[0]] + (rest[0] + [BAR] + Joined(rest[1..]));
        }
      }
    }
  }

  lemma {:induction false} SplitWithoutBar(s: string)
    requires BAR !in s
    ensures Split(s) == [s]
  {
    if s != "" {
      SplitWithoutBar(s[1..]);
      assert [s[0]] + s[1..] == s;
    }
  }

  lemma {:induction false} SplitEncoded(url: string, status: string)
    requires BAR !in url
    ensures Split(Encode(url, status)) == [url] + Split(status)
  {
    var p := Encode(url, status);
    if url == "" {
      assert p[1..] == status;
    } else {
      assert p[1..] == Encode(url[1..], status);
      SplitEncoded(url[1..], status);
      assert [url[0]] + url[1..] == url;
    }
  }

  /** On the wire: the URL, a bar, the status; and a field per bar and one more. */
  lemma OnTheWire(url: string, status: string)
    ensures Encode(url, status) == url + "|" + status
    ensures |Split(url)| == Count(url, (c: char) => c == '|') + 1
  {
    SplitProperties(url);
    BarsCount(url);
  }

  lemma {:induction false} BarsCount(s: string)
    ensures Bars(s) == Count(s, (c: char) => c == '|')
  {
    if s != "" {
      BarsCount(s[1..]);
      assert s == [s[0]] + s[1..];
      CountConcat([s[0]], s[1..], (c: char) => c == '|');
      CountSnoc([], s[0], (c: char) => c == '|');
      assert [] + [s[0]] == [s[0]];
    }
  }

  /** A published pair arrives as it was sent exactly when neither half contains a bar. */
  lemma EncodeDecode(url: string, status: string)
    ensures Decode(Encode(url, status)) == Some((url, status)) <==> BAR !in url && BAR !in status
  {
    if BAR !in url && BAR !in status {
      SplitEncoded(url, status);
      SplitWithoutBar(status);
    } else {
      SplitProperties(Encode(url, status));
    }
  }

  /** A payload is accepted exactly when it has one bar, and then encoding its halves restores it. */
  lemma DecodeEncode(payload: string)
    ensures Decode(payload).Some? <==> Bars(payload) == 1
    ensures Decode(payload).Some? ==> Encode(Decode(payload).value.0, Decode(payload).value.1) == payload
  {
    SplitProperties(payload);
    var parts := Split(payload);
    if |parts| == 2 {
      assert Joined(parts[1..]) == parts[1];
    }
  }
}
