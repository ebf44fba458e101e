/**
 * The link `sendToWhatsApp` builds (app/qr-scanner.tsx, lines 112-127): the
 * decoded text, percent-encoded, as the `text` query of a wa.me link, addressed
 * to the configured phone number or group id when there is one.
 */
module WhatsAppLink {
  import opened Wrappers
  import opened UriComponent
  import opened ConfigStore

  const Origin: string := "https://wa.me/"
  const TextQuery: string := "?text="

  /**
   * The URL opened for a decoded text: the share form "https://wa.me/?text=..."
   * by default, the direct form "https://wa.me/<number>?text=..." when storage
   * holds a record whose phoneNumber is a non-empty string. The number is used
   * verbatim.
   */
  function WhatsAppUrl(items: map<string, Config>, scanResult: string): (url: string)
    ensures url == Origin + SavedPhoneNumber(items) + TextQuery + EncodeUriComponent(scanResult)
  {
    var shareUrl := Origin + TextQuery + EncodeUriComponent(scanResult);
    match GetItem(items, ConfigKey)
    case None => shareUrl
    case Some(record) =>
      match record.phoneNumber
      case None => shareUrl
      case Some(phoneNumber) =>
        if phoneNumber != "" then Origin + phoneNumber + TextQuery + EncodeUriComponent(scanResult)
        else shareUrl
  }

  /** Where a link sends the user and what it pre-fills. */
  datatype Target = Target(recipient: string, text: string)

  /** The position of the first `c` in `s`, or |s| when there is none. */
  function IndexOf(s: string, c: char): (i: nat)
    ensures i <= |s| && c !in s[..i]
    ensures i < |s| ==> s[i] == c
  {
    if s == [] || s[0] == c then 0 else 1 + IndexOf(s[1..], c)
  }

  /** The first `c` in `prefix + s` is the first character of `s` when `prefix` has none. */
  lemma {:induction false} IndexOfAfterPrefix(prefix: string, c: char, s: string)
    requires c !in prefix && |s| > 0 && s[0] == c
    ensures IndexOf(prefix + s, c) == |prefix|
  {
    if prefix != [] {
      assert (prefix + s)[1..] == prefix[1..] + s;
      IndexOfAfterPrefix(prefix[1..], c, s);
    }
  }

  /**
   * Reads a wa.me link back as a browser would: the path runs to the first
   * '?', the query must be the single parameter `text`, and its value is
   * percent-decoded. None for anything else, a fragment included.
   */
  function ParseUrl(url: string): Option<Target> {
    if |url| < |Origin| || url[..|Origin|] != Origin then None
    else
      var rest := url[|Origin|..];
      var i := IndexOf(rest, '?');
      var path := rest[..i];
      var query := rest[i..];
      if '#' in path || |query| < |TextQuery| || query[..|TextQuery|] != TextQuery then None
      else
        var value := query[|TextQuery|..];
        if '#' in value || '&' in value then None
        else
          match DecodeUriComponent(value)
          case None => None
          case Some(text) => Some(Target(path, text))
  }

  /**
   * The two forms of the link. With no number saved (no record, no field, or
   * ""), the recipient-less share form; otherwise the direct form with the
   * number spliced in unchanged. Both are the one shape Origin + number + "?text=" + encoding.
   */
  lemma WhatsAppUrlForms(items: map<string, Config>, scanResult: string)
    ensures SavedPhoneNumber(items) == "" ==>
      WhatsAppUrl(items, scanResult) == "https://wa.me/?text=" + EncodeUriComponent(scanResult)
    ensures SavedPhoneNumber(items) != "" ==>
      WhatsAppUrl(items, scanResult) == "https://wa.me/" + SavedPhoneNumber(items) + "?text=" + EncodeUriComponent(scanResult)
    ensures WhatsAppUrl(items, scanResult) == Origin + SavedPhoneNumber(items) + TextQuery + EncodeUriComponent(scanResult)
  {
  }

  /**
   * A link built for a recipient without '?' or '#' reads back as that
   * recipient and exactly the decoded text, whatever the text holds.
   */
  lemma ParseWhatsAppUrl(items: map<string, Config>, scanResult: string)
    requires '?' !in SavedPhoneNumber(items) && '#' !in SavedPhoneNumber(items)
    ensures ParseUrl(WhatsAppUrl(items, scanResult)) == Some(Target(SavedPhoneNumber(items), scanResult))
  {
    WhatsAppUrlForms(items, scanResult);
    ParseLinkOfShape(SavedPhoneNumber(items), scanResult);
  }

  lemma ParseLinkOfShape(phone: string, text: string)
    requires '?' !in phone && '#' !in phone
    ensures ParseUrl(Origin + phone + TextQuery + EncodeUriComponent(text)) == Some(Target(phone, text))
  {
    var encoded := EncodeUriComponent(text);
    var url := Origin + phone + TextQuery + encoded;
    var rest := phone + (TextQuery + encoded);
    assert url == Origin + rest;
    assert url[..|Origin|] == Origin && url[|Origin|..] == rest;
    IndexOfAfterPrefix(phone, '?', TextQuery + encoded);
    var i := IndexOf(rest, '?');
    assert rest[..i] == phone;
    assert rest[i..] == TextQuery + encoded;
    assert rest[i..][..|TextQuery|] == TextQuery;
    assert rest[i..][|TextQuery|..] == encoded;
    EncodedHasNoDelimiters(text);
    DecodeEncode(text);
  }

  /** A recipient holding '?', such as "1?x", ends the path early: the link no longer reads back. */
  lemma QuestionMarkInRecipientBreaksLink(phoneNumber: string, scanResult: string)
    requires phoneNumber == "1?x" && scanResult == "hi"
    ensures ParseUrl(WhatsAppUrl(SaveConfig(map[], phoneNumber), scanResult)) == None
  {
    var items := SaveConfig(map[], phoneNumber);
    WhatsAppUrlForms(items, scanResult);
    EncodeUnchangedIff(scanResult);
    var url := WhatsAppUrl(items, scanResult);
    var rest := phoneNumber + (TextQuery + scanResult);
    assert url == Origin + rest;
    assert url[..|Origin|] == Origin && url[|Origin|..] == rest;
    assert rest == phoneNumber[..1] + (phoneNumber[1..] + TextQuery + scanResult);
    IndexOfAfterPrefix(phoneNumber[..1], '?', phoneNumber[1..] + TextQuery + scanResult);
    assert rest[1..][..|TextQuery|] != TextQuery by {
      assert rest[1..][1] == 'x';
    }
  }

  /**
   * The configuration page and the scanner agree on the key: once a number
   * is saved, the next link is addressed to it; once "" is saved, the link
   * is the share form.
   */
  lemma LinkAfterSave(items: map<string, Config>, phoneNumber: string, scanResult: string)
    ensures phoneNumber == "" ==>
      WhatsAppUrl(SaveConfig(items, phoneNumber), scanResult) == "https://wa.me/?text=" + EncodeUriComponent(scanResult)
    ensures phoneNumber != "" ==>
      WhatsAppUrl(SaveConfig(items, phoneNumber), scanResult) == "https://wa.me/" + phoneNumber + "?text=" + EncodeUriComponent(scanResult)
  {
  }

  // As in the encoder's examples, the inputs are parameters fixed by `requires`
  // so that Dafny does not unroll the functions on literals eagerly.

  /** Nothing saved, "hello world" decoded: the share link. */
  lemma ShareLinkExample(scanResult: string)
    requires scanResult == "hello world"
    ensures WhatsAppUrl(map[], scanResult) == "https://wa.me/?text=hello%20world"
  {
    WhatsAppUrlForms(map[], scanResult);
    HelloWorldExample(scanResult);
  }

  /** "14155550123" saved, "invoice#42" decoded: the direct link. */
  lemma DirectLinkExample(phoneNumber: string, scanResult: string)
    requires phoneNumber == "14155550123" && scanResult == "invoice#42"
    ensures WhatsAppUrl(SaveConfig(map[], phoneNumber), scanResult) == "https://wa.me/14155550123?text=invoice%2342"
  {
    SaveThenLoad(map[], phoneNumber);
    InvoiceExample(scanResult);
  }
}
