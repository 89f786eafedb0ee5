/**
  How the settings page masks the stored Mailchimp API key for display
  (`obfuscate_api_key`) and how it recognises a submitted key that is
  still the masked display form (`is_key_obfuscated`).
 */
module Credentials {
  import opened Php

  /**
    The outcome of masking. `RepeatError` is `str_repeat` refusing a negative
    count, which PHP 8 raises as a ValueError.
   */
  datatype Masking = Masked(text: string) | RepeatError

  /**
    `obfuscate_api_key`: a PHP-empty key comes back unchanged. Otherwise the
    key is cut with `explode('-', $api_key)`. The first segment keeps its
    first four characters and has the rest starred out, and only the second
    segment (`$parts[1]`, "" when there is none) is re-attached after a `-`.
   */
  function ObfuscateApiKey(key: string): (r: Masking)
    ensures Empty(key) ==> r == Masked(key)
    ensures !Empty(key) && |Explode('-', key)[0]| < 4 ==> r == RepeatError
    ensures !Empty(key) && |Explode('-', key)[0]| >= 4 ==>
              r.Masked? && |r.text| > |Explode('-', key)[0]| && r.text[..4] == key[..4]
  {
    if Empty(key) then Masked(key)
    else
      var parts := Explode('-', key);
      if |parts[0]| < 4 then RepeatError
      else
        var second := if |parts| >= 2 then parts[1] else "";
        assert key == parts[0] + (if |parts| == 1 then "" else ['-'] + Implode('-', parts[1..]));
        assert key[..4] == parts[0][..4];
        Masked(parts[0][..4] + Repeat('*', |parts[0]| - 4) + "-" + second)
  }

  /** `is_key_obfuscated`: `strpos` finds a `*` exactly when the key holds one. */
  function IsKeyObfuscated(key: string): (r: bool)
    ensures r <==> '*' in key
  {
    StrPos(key, '*') != None
  }

  /**
    A key made of a first segment of at least four characters and one more
    segment masks to the first four characters, a star for every other
    character of the first segment, and the second segment: the length is
    kept and so are the first four characters.
   */
  lemma ObfuscateTwoSegments(p: string, s: string)
    requires '-' !in p && '-' !in s && |p| >= 4
    ensures ObfuscateApiKey(p + "-" + s) == Masked(p[..4] + Repeat('*', |p| - 4) + "-" + s)
    ensures |ObfuscateApiKey(p + "-" + s).text| == |p + "-" + s|
    ensures ObfuscateApiKey(p + "-" + s).text[..4] == p[..4]
  {
    ExplodeFirstSeparator('-', p, s);
    ExplodeNoSeparator('-', s);
  }

  /** Everything after a second `-` is dropped from the display. */
  lemma ObfuscateDropsAfterSecondHyphen(p: string, s: string, t: string)
    requires '-' !in p && '-' !in s && |p| >= 4
    ensures ObfuscateApiKey(p + "-" + s + "-" + t) == ObfuscateApiKey(p + "-" + s)
  {
    assert p + "-" + s + "-" + t == p + ['-'] + (s + ['-'] + t);
    ExplodeFirstSeparator('-', p, s + ['-'] + t);
    ExplodeFirstSeparator('-', s, t);
    ObfuscateTwoSegments(p, s);
  }

  /** A key without any `-` is masked and followed by a trailing `-`. */
  lemma ObfuscateWithoutHyphen(key: string)
    requires '-' !in key && |key| >= 4
    ensures ObfuscateApiKey(key) == Masked(key[..4] + Repeat('*', |key| - 4) + "-")
  {
  }

  /**
    When the first segment is longer than four characters the display holds
    a star, so submitting it unchanged is recognised as the masked form.
   */
  lemma ObfuscatedIsRecognised(key: string)
    requires !Empty(key) && |Explode('-', key)[0]| > 4
    ensures ObfuscateApiKey(key).Masked?
    ensures IsKeyObfuscated(ObfuscateApiKey(key).text)
  {
    var parts := Explode('-', key);
    var text := ObfuscateApiKey(key).text;
    assert text[4] == Repeat('*', |parts[0]| - 4)[0];
  }

  /** Masking a masked key changes nothing more. */
  lemma ObfuscateIdempotent(key: string)
    requires !Empty(key) && |Explode('-', key)[0]| >= 4
    ensures ObfuscateApiKey(key).Masked?
    ensures ObfuscateApiKey(ObfuscateApiKey(key).text) == ObfuscateApiKey(key)
  {
    var parts := Explode('-', key);
    var head := parts[0][..4] + Repeat('*', |parts[0]| - 4);
    var second := if |parts| >= 2 then parts[1] else "";
    assert '-' !in parts[0];
    assert '-' !in second;
    assert '-' !in head;
    ObfuscateTwoSegments(head, second);
    assert head[..4] == parts[0][..4];
  }
}
