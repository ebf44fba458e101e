# QuickQrSender — a Dafny model

QuickQrSender is a small web utility: it scans a QR code with the device camera and opens
WhatsApp with the decoded text as a pre-filled message. The message goes either to a phone
number or group id saved on a configuration page, or, with none saved, to a recipient the
user picks. This project models the three parts of it that have logic, and proves
properties of them:

- **the link builder** (`sendToWhatsApp` in `app/qr-scanner.tsx`): the decoded text is
  percent-encoded with `encodeURIComponent` and placed in `https://wa.me/?text=…`, or in
  `https://wa.me/<number>?text=…` when a non-empty number is saved. The number is used
  verbatim. The encoder follows ECMA-262 5.1, section 15.1.3.4. It copies
  `A–Z a–z 0–9 - _ . ! ~ * ' ( )` and writes every other code point as the `%XY` escapes of
  its UTF-8 octets (section 15.1.3, Table 21), with upper-case hex digits.
  `decodeURIComponent` (section 15.1.3.2) is modelled beside it as the partner the encoder
  is proved against.
- **the scan-session controller** (the `QRScanner` component): the camera permission, whether
  the scanner runs, the one-shot latch `hasScannedRef`, the link on display and the error
  banner, with one method per handler. The outcomes of the permission query, the permission
  prompt and the decoding library's start are method parameters.
- **the configuration store** (`app/config/page.tsx`): the record `{phoneNumber}` under the
  localStorage key `"qrScannerConfig"`, loaded when the page mounts and overwritten on save.
  The scanner reads the same key.

Files: `wrappers.dfy` (Option), `utf8.dfy` (UTF-8 octets of a code point and back),
`uri_component.dfy` (the encoder and decoder), `config_store.dfy` (the record, localStorage
and the configuration page), `whatsapp_link.dfy` (the link and reading it back),
`qr_scanner.dfy` (the controller class).

Decoded text is a Dafny `string`, a sequence of Unicode scalar values. A lone UTF-16
surrogate, on which `encodeURIComponent` throws `URIError`, therefore cannot occur.
localStorage is a class holding `map<string, Config>`, shared by the configuration page and
the scanner. `Config(phoneNumber: Option<string>)` is the parsed record; `None` means the
stored object has no `phoneNumber` field. `window.open` and `router.push` are recorded in
ghost fields (`openedUrls`, `navigatedTo`).

Behaviour of the code that the model keeps as written:

- A successful decode does not stop the session. The stop button turns into "Restart"
  (`app/qr-scanner.tsx:143`), and the session stays open until the user stops it.
- `stopScanning` does not call the library's `stop`. It clears `isScanning` and the link;
  the stop itself happens in the effect cleanup (`app/qr-scanner.tsx:27-30`).
- The `catch` in `stopScanning` (`app/qr-scanner.tsx:94-97`) only surrounds two state
  setters, so it cannot run, and the model has no "failed to stop" path.
- A failed start leaves `isScanning` as it was; the handler never sets it to false.
- `startScanning` resets the latch and clears the banner before it checks the permission.
  So a start refused for lack of permission also begins a new session.
- `startScanning` does not clear the link on display; only `stopScanning` does.
- `startScanning` has no idle guard; only the UI hides its button while scanning
  (`app/qr-scanner.tsx:158`), so the model lets it be called in any state.
- The first permission state is "prompt", as the component's `useState` has it.

## Model

| member | source | states |
|---|---|---|
| `Utf8.EncodeScalar` | app/qr-scanner.tsx:114 | every code point becomes a well-formed UTF-8 sequence: the leading octet announces the length, the rest are continuation octets, and the length is 1, 2, 3 or 4 exactly for the ranges below 80, 800, 10000 and up to 10FFFF |
| `Utf8.DecodeEncodeScalar` | app/qr-scanner.tsx:114 | decoding the UTF-8 octets of a code point gives that code point back |
| `Utf8.EncodeDecodeScalar` | app/qr-scanner.tsx:114 | the decoder accepts only canonical encodings: whatever it decodes to `c` is exactly the encoding of `c` (no overlong form, no surrogate, nothing above 10FFFF) |
| `Utf8.EncodeScalarInjective` | app/qr-scanner.tsx:114 | distinct code points have distinct UTF-8 encodings |
| `UriComponent.EscapeOctet` | app/qr-scanner.tsx:114 | an escaped octet is three characters: '%' and two upper-case hexadecimal digits |
| `UriComponent.EscapeOctetsShape` | app/qr-scanner.tsx:114 | in the escapes of n octets (3n characters), '%' stands exactly at the positions divisible by 3, and every other character is an upper-case hex digit |
| `UriComponent.EncodedAlphabet` | app/qr-scanner.tsx:119-121 | the encoding of any text holds only unreserved characters and '%' |
| `UriComponent.EncodeAppend` | app/qr-scanner.tsx:119-121 | the encoder works character by character: the encoding of `a + b` is the encoding of `a` followed by that of `b` |
| `UriComponent.EncodeUnchangedIff` | app/qr-scanner.tsx:119-121 | a text is encoded as itself if and only if all its characters are unreserved |
| `UriComponent.EncodeAroundOne` | app/qr-scanner.tsx:119-121 | in a text that is unreserved except for one character, only that character changes |
| `UriComponent.EncodeChar` | app/qr-scanner.tsx:114 | a code point is encoded as a single character exactly when it is unreserved; any other becomes three characters per UTF-8 octet |
| `UriComponent.EncodeUriComponent` | app/qr-scanner.tsx:119-121 | the encoding is never shorter than the text; its alphabet, its character-by-character structure and its inverse are the lemmas `EncodedAlphabet`, `EncodeAppend` and `DecodeEncode` |
| `UriComponent.EncodeCharUnchangedIff` | app/qr-scanner.tsx:114 | a code point is copied unchanged if and only if it is in `A–Z a–z 0–9 - _ . ! ~ * ' ( )` |
| `UriComponent.EncodeCharEscapes` | app/qr-scanner.tsx:114 | any other code point becomes one `%XY` triple per UTF-8 octet, the k-th triple reading back as the k-th octet |
| `UriComponent.DecodeEncode` | app/qr-scanner.tsx:119-121 | `decodeURIComponent(encodeURIComponent(t)) == t` for every text `t`: spaces, '&', '?', '#', non-ASCII and the empty text included |
| `UriComponent.EncodeUriComponentInjective` | app/qr-scanner.tsx:119-121 | distinct decoded texts give distinct encodings |
| `UriComponent.EncodedHasNoDelimiters` | app/qr-scanner.tsx:119-121 | the encoded text contains no '?', '#', '&', ' ', '/' or '=' |
| `UriComponent.HelloWorldExample` | app/qr-scanner.tsx:114 | "hello world" encodes as "hello%20world" |
| `UriComponent.InvoiceExample` | app/qr-scanner.tsx:119-121 | "invoice#42" encodes as "invoice%2342" |
| `UriComponent.NonAsciiExample` | app/qr-scanner.tsx:114 | "café" encodes as "caf%C3%A9" and U+1F600 as "%F0%9F%98%80" |
| `ConfigStore.LocalStorage.constructor` | app/config/page.tsx:15 | the origin's storage starts with no entries, so nothing is found under "qrScannerConfig" until a save |
| `ConfigStore.GetItem` | app/qr-scanner.tsx:113 | `localStorage.getItem(key)` finds a record exactly when the key is present, and then it is the stored one |
| `ConfigStore.PhoneNumberOf` | app/config/page.tsx:17 | `record.phoneNumber \|\| ""`: a record carrying a number gives exactly that number, a non-empty result is the record's own field, and a record without the field gives "" |
| `ConfigStore.SavedPhoneNumber` | app/qr-scanner.tsx:116-118 | with no stored entry the number is ""; a record stored under "qrScannerConfig" that carries a number gives exactly that number; a non-empty result is that field |
| `ConfigStore.SaveConfig` | app/config/page.tsx:22 | after the save, "qrScannerConfig" holds `{phoneNumber}`, the key set gains only that key, and every other entry keeps its value |
| `ConfigStore.SaveConfigFrame` | app/config/page.tsx:22 | saving creates no entry besides "qrScannerConfig": a key that was absent is still not found afterwards |
| `ConfigStore.SaveThenLoad` | app/config/page.tsx:14-24 | after saving P, the stored number read back is exactly P, "" included |
| `ConfigStore.SaveOverwrites` | app/config/page.tsx:22 | a second save replaces the first entirely |
| `ConfigStore.ConfigPage.constructor` | app/config/page.tsx:10-12 | the page's number starts as "" and nothing has been navigated to |
| `ConfigStore.ConfigPage.LoadEffect` | app/config/page.tsx:14-19 | with a stored entry, the field becomes its number, or "" when the record has none; with no entry, the field is left unchanged (so it stays "" after mounting) |
| `ConfigStore.ConfigPage.SetPhoneNumber` | app/config/page.tsx:39-40 | typing sets the field |
| `ConfigStore.ConfigPage.HandleSave` | app/config/page.tsx:21-24 | storage becomes the old storage with only the configuration entry replaced by the field's value, the saved number reads back as the field, and navigation goes to "/" |
| `WhatsAppLink.WhatsAppUrl` | app/qr-scanner.tsx:113-123 | every link is `"https://wa.me/" + saved number + "?text=" + encodeURIComponent(text)`, which is the share form when the saved number is "" |
| `WhatsAppLink.WhatsAppUrlForms` | app/qr-scanner.tsx:113-123 | with no saved number (no entry, no field, or ""), the link is exactly `"https://wa.me/?text=" + encodeURIComponent(text)`; with a saved non-empty P it is exactly `"https://wa.me/" + P + "?text=" + encodeURIComponent(text)`, P verbatim |
| `WhatsAppLink.ParseWhatsAppUrl` | app/qr-scanner.tsx:113-123 | when the saved number has no '?' or '#', reading the link back as a URL (path up to the first '?', single `text` query, percent-decoded) gives that number and exactly the decoded text |
| `WhatsAppLink.QuestionMarkInRecipientBreaksLink` | app/qr-scanner.tsx:119 | because the number is spliced in unescaped, a saved number "1?x" gives a link that no longer reads back as a `text` query |
| `WhatsAppLink.LinkAfterSave` | app/qr-scanner.tsx:113-121 | after the configuration page saves a non-empty P, the next link is `https://wa.me/P?text=…`; after it saves "", the link is the recipient-less form |
| `WhatsAppLink.ShareLinkExample` | app/qr-scanner.tsx:114 | with nothing saved, "hello world" gives `https://wa.me/?text=hello%20world` |
| `WhatsAppLink.DirectLinkExample` | app/qr-scanner.tsx:119-121 | with "14155550123" saved, "invoice#42" gives `https://wa.me/14155550123?text=invoice%2342` |
| `QrScanner.Scanner.OpenedThisSession` | app/qr-scanner.tsx:101-106 | under the controller's invariant, at most one URL has been opened since the last `startScanning` |
| `QrScanner.Scanner.constructor` | app/qr-scanner.tsx:17-24 | permission "prompt", not scanning, latch clear, no library instance, no link, no error, nothing opened |
| `QrScanner.Scanner.CheckPermission` | app/qr-scanner.tsx:34-45 | permission becomes the queried state, or "prompt" when the query fails; nothing else changes |
| `QrScanner.Scanner.OnPermissionChange` | app/qr-scanner.tsx:40 | a permission change notification sets the permission; nothing else changes |
| `QrScanner.Scanner.RequestPermission` | app/qr-scanner.tsx:47-59 | a granted prompt gives "granted" and no error; a refused one gives "denied" and "Camera permission was denied. Please grant permission and try again."; nothing else changes |
| `QrScanner.Scanner.StartScanning` | app/qr-scanner.tsx:61-87 | the banner is cleared and the latch reset, opening a new session with no link opened yet. Without "granted" it only prompts, leaving the scanner and `isScanning` alone. With "granted" the library exists afterwards; a successful start sets `isScanning`, a failed one leaves it and shows "Failed to start the scanner. Please try again.". Scanning never starts without "granted" beforehand |
| `QrScanner.Scanner.StopScanning` | app/qr-scanner.tsx:89-99 | when scanning: `isScanning` and the link are cleared, and latch and permission are kept; when not scanning: nothing changes |
| `QrScanner.Scanner.OnScanSuccess` | app/qr-scanner.tsx:101-106 | the first decode of a session sets the latch, opens the link and shows it; every later decode changes nothing; scanning continues either way |
| `QrScanner.Scanner.SendToWhatsApp` | app/qr-scanner.tsx:112-127 | the link built from the stored configuration is appended to the opened URLs and becomes the link on display; nothing else changes |
| `QrScanner.SaveThenScan` | app/qr-scanner.tsx:113-122 | saving P on the configuration page, then granting, starting and decoding twice, shows the link to P (or the share form for "") for the first decode |
| `QrScanner.TwoSessions` | app/qr-scanner.tsx:61-106 | a prompt answered on the first start, then start, decode, stop and start again: each session acts on its own first decode |

## Left out

- Rendering: the JSX, the buttons, the alert and the layout (`app/qr-scanner.tsx:129-180`,
  `app/config/page.tsx:26-49`, `app/page.tsx`). Which button is shown in which state is not modelled.
- The `html5-qrcode` library: camera acquisition, frame capture, decoding, the `fps: 10`
  setting and the instance's identity. Whether `start` succeeds is a parameter, decoded
  texts arrive as arguments of `OnScanSuccess`, and the instance is a flag (`scannerCreated`).
- `onScanError` (`app/qr-scanner.tsx:108-110`): it only logs, and logging is not modelled.
- The browser's Permissions API and `getUserMedia` prompt: their answers are parameters. The
  `onchange` subscription is the method `OnPermissionChange`, which the environment calls.
- React scheduling: async interleavings, re-render timing, the effect that re-runs
  `checkPermission` whenever `isScanning` changes, and the stale-closure cleanup that
  actually stops the library (`app/qr-scanner.tsx:25-32`). All of this is framework
  behaviour, not the component's logic.
- `window.open`, `router.push` and `console`: the first two are only recorded in ghost
  fields; the third is not modelled.
- JSON: the stored value is the parsed record itself. Malformed JSON makes `JSON.parse` throw
  uncaught (`app/config/page.tsx:17`, `app/qr-scanner.tsx:117`); that path is not modelled.
  Neither is a `phoneNumber` that is not a string, nor a stored empty string. An empty
  string is falsy, so the code treats it like a missing entry, and the map cannot hold one.
- `OnScanSuccess` is callable in any state. In the program, the library calls it only while
  it runs; the model does not track the library's running state separately from `isScanning`.
