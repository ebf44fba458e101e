/**
 * The `QRScanner` component's controller (app/qr-scanner.tsx, lines 16-110):
 * camera permission, whether the scanner runs, the one-shot latch that lets
 * only the first decode of a session through, the link shown after a scan and
 * the error banner. The outcomes of the browser's permission query and prompt
 * and of the decoding library's start are parameters of the handlers.
 */
module QrScanner {
  import opened Wrappers
  import opened ConfigStore
  import opened UriComponent
  import opened WhatsAppLink

  datatype PermissionState = Prompt | Granted | Denied

  const PermissionDeniedMessage: string := "Camera permission was denied. Please grant permission and try again."
  const StartFailedMessage: string := "Failed to start the scanner. Please try again."

  class Scanner {
    var permissionState: PermissionState
    var isScanning: bool
    /** `hasScannedRef.current`: set by the first decode of a session. */
    var hasScanned: bool
    /** `scannerRef.current !== null`: the decoding library has been instantiated. */
    var scannerCreated: bool
    var whatsappLink: Option<string>
    var errorMessage: Option<string>
    const storage: LocalStorage
    /** Every URL passed to `window.open`, oldest first. */
    ghost var openedUrls: seq<string>
    /** How many URLs had been opened when `startScanning` last ran. */
    ghost var sessionStart: nat

    /**
     * The latch tells whether this session has opened its one link, and the
     * link on display is the last one opened.
     */
    ghost predicate Valid()
      reads this
    {
      sessionStart <= |openedUrls| &&
      |openedUrls| - sessionStart == (if hasScanned then 1 else 0) &&
      (whatsappLink.Some? ==> |openedUrls| > 0 && whatsappLink.value == openedUrls[|openedUrls| - 1])
    }

    /** The links opened since the last `startScanning`. */
    ghost function OpenedThisSession(): (links: seq<string>)
      reads this
      requires Valid()
      ensures |links| <= 1
    {
      openedUrls[sessionStart..]
    }

    /** The state after mounting: permission "prompt", nothing running, nothing shown. */
    constructor (storage: LocalStorage)
      ensures Valid() && this.storage == storage
      ensures permissionState == Prompt && !isScanning && !hasScanned && !scannerCreated
      ensures whatsappLink == None && errorMessage == None && openedUrls == []
    {
      this.storage := storage;
      permissionState := Prompt;
      isScanning := false;
      hasScanned := false;
      scannerCreated := false;
      whatsappLink := None;
      errorMessage := None;
      openedUrls := [];
      sessionStart := 0;
    }

    /**
     * `checkPermission` (lines 34-45): the camera permission the query
     * reports, or "prompt" when the query fails (`query` is None).
     */
    method CheckPermission(query: Option<PermissionState>)
      requires Valid()
      modifies this
      ensures Valid()
      ensures permissionState == query.GetOr(Prompt)
      ensures isScanning == old(isScanning) && hasScanned == old(hasScanned)
      ensures scannerCreated == old(scannerCreated)
      ensures whatsappLink == old(whatsappLink) && errorMessage == old(errorMessage)
      ensures openedUrls == old(openedUrls) && sessionStart == old(sessionStart)
    {
      match query
      case Some(state) => permissionState := state;
      case None => permissionState := Prompt;
    }

    /** The `onchange` subscription set up by `checkPermission` (line 40). */
    method OnPermissionChange(state: PermissionState)
      requires Valid()
      modifies this
      ensures Valid()
      ensures permissionState == state
      ensures isScanning == old(isScanning) && hasScanned == old(hasScanned)
      ensures scannerCreated == old(scannerCreated)
      ensures whatsappLink == old(whatsappLink) && errorMessage == old(errorMessage)
      ensures openedUrls == old(openedUrls) && sessionStart == old(sessionStart)
    {
      permissionState := state;
    }

    /**
     * `requestPermission` (lines 47-59): a granted prompt sets "granted" and
     * clears the banner; a refused or failed one sets "denied" and the
     * permission message.
     */
    method RequestPermission(userGrants: bool)
      requires Valid()
      modifies this
      ensures Valid()
      ensures permissionState == (if userGrants then Granted else Denied)
      ensures errorMessage == (if userGrants then None else Some(PermissionDeniedMessage))
      ensures isScanning == old(isScanning) && hasScanned == old(hasScanned)
      ensures scannerCreated == old(scannerCreated) && whatsappLink == old(whatsappLink)
      ensures openedUrls == old(openedUrls) && sessionStart == old(sessionStart)
    {
      if userGrants {
        permissionState := Granted;
        errorMessage := None;
      } else {
        permissionState := Denied;
        errorMessage := Some(PermissionDeniedMessage);
      }
    }

    /**
     * `startScanning` (lines 61-87). The banner is cleared and the latch
     * reset in every case, which opens a new session. Without "granted" it
     * only prompts for permission (`userGrants` is the answer) and leaves the
     * scanner alone; with it, the library is instantiated once and started
     * (`startSucceeds` is the outcome): success sets `isScanning`, failure
     * leaves it as it was and shows the start message. The link on display
     * is kept.
     */
    method StartScanning(userGrants: bool, startSucceeds: bool)
      requires Valid()
      modifies this
      ensures Valid()
      ensures !hasScanned && sessionStart == |openedUrls| && OpenedThisSession() == []
      ensures openedUrls == old(openedUrls) && whatsappLink == old(whatsappLink)
      ensures old(permissionState) != Granted ==>
        permissionState == (if userGrants then Granted else Denied) &&
        errorMessage == (if userGrants then None else Some(PermissionDeniedMessage)) &&
        isScanning == old(isScanning) && scannerCreated == old(scannerCreated)
      ensures old(permissionState) == Granted ==>
        permissionState == Granted && scannerCreated &&
        isScanning == (startSucceeds || old(isScanning)) &&
        errorMessage == (if startSucceeds then None else Some(StartFailedMessage))
      ensures isScanning && !old(isScanning) ==> old(permissionState) == Granted
    {
      errorMessage := None;
      hasScanned := false;
      sessionStart := |openedUrls|;
      if permissionState != Granted {
        RequestPermission(userGrants);
        return;
      }
      if !scannerCreated {
        scannerCreated := true;
      }
      if startSucceeds {
        isScanning := true;
      } else {
        errorMessage := Some(StartFailedMessage);
      }
    }

    /**
     * `stopScanning` (lines 89-99): when scanning, clear `isScanning` and the
     * link on display; otherwise do nothing. The latch and the permission are
     * kept, and the library itself is stopped by the effect cleanup, not here.
     */
    method StopScanning()
      requires Valid()
      modifies this
      ensures Valid()
      ensures !old(isScanning) ==> unchanged(this)
      ensures old(isScanning) ==> !isScanning && whatsappLink == None
      ensures permissionState == old(permissionState) && hasScanned == old(hasScanned)
      ensures scannerCreated == old(scannerCreated) && errorMessage == old(errorMessage)
      ensures openedUrls == old(openedUrls) && sessionStart == old(sessionStart)
    {
      if isScanning {
        isScanning := false;
        whatsappLink := None;
      }
    }

    /**
     * `onScanSuccess` (lines 101-106): the first decode of a session sets the
     * latch and sends the text on; every later one changes nothing. The
     * session keeps running either way.
     */
    method OnScanSuccess(result: string)
      requires Valid()
      modifies this
      ensures Valid()
      ensures old(hasScanned) ==> unchanged(this)
      ensures !old(hasScanned) ==>
        hasScanned &&
        whatsappLink == Some(WhatsAppUrl(storage.items, result)) &&
        openedUrls == old(openedUrls) + [WhatsAppUrl(storage.items, result)] &&
        OpenedThisSession() == [WhatsAppUrl(storage.items, result)]
      ensures permissionState == old(permissionState) && isScanning == old(isScanning)
      ensures scannerCreated == old(scannerCreated) && errorMessage == old(errorMessage)
      ensures sessionStart == old(sessionStart)
    {
      if !hasScanned {
        hasScanned := true;
        SendToWhatsApp(result);
      }
    }

    /**
     * `sendToWhatsApp` (lines 112-127): build the link from the stored
     * configuration, open it, and show it.
     */
    method SendToWhatsApp(scanResult: string)
      modifies this
      ensures whatsappLink == Some(WhatsAppUrl(storage.items, scanResult))
      ensures openedUrls == old(openedUrls) + [WhatsAppUrl(storage.items, scanResult)]
      ensures permissionState == old(permissionState) && isScanning == old(isScanning)
      ensures hasScanned == old(hasScanned) && scannerCreated == old(scannerCreated)
      ensures errorMessage == old(errorMessage) && sessionStart == old(sessionStart)
    {
      var url := WhatsAppUrl(storage.items, scanResult);
      openedUrls := openedUrls + [url];
      whatsappLink := Some(url);
    }
  }

  /**
   * The two screens together: the number typed on the configuration page and
   * saved is the recipient of the link the scanner opens for the next decode
   * of a session that starts with permission granted.
   */
  method SaveThenScan(phoneNumber: string, scanResult: string) returns (link: Option<string>)
    ensures phoneNumber == "" ==> link == Some("https://wa.me/?text=" + EncodeUriComponent(scanResult))
    ensures phoneNumber != "" ==>
      link == Some("https://wa.me/" + phoneNumber + "?text=" + EncodeUriComponent(scanResult))
  {
    var storage := new LocalStorage();
    var page := new ConfigPage(storage);
    page.LoadEffect();
    page.SetPhoneNumber(phoneNumber);
    page.HandleSave();
    var scanner := new Scanner(storage);
    scanner.CheckPermission(Some(Granted));
    scanner.StartScanning(true, true);
    scanner.OnScanSuccess(scanResult);
    scanner.OnScanSuccess(scanResult + scanResult);
    assert |scanner.OpenedThisSession()| == 1;
    LinkAfterSave(map[], phoneNumber, scanResult);
    link := scanner.whatsappLink;
  }

  /**
   * Stopping and starting again resets the latch: each session acts on its
   * own first decode, with the permission granted by the first start's prompt.
   */
  method TwoSessions(first: string, second: string) returns (firstLink: Option<string>, secondLink: Option<string>)
    ensures firstLink == Some(WhatsAppUrl(map[], first))
    ensures secondLink == Some(WhatsAppUrl(map[], second))
  {
    var storage := new LocalStorage();
    var scanner := new Scanner(storage);
    scanner.CheckPermission(None);
    scanner.StartScanning(true, false);
    assert scanner.permissionState == Granted && !scanner.isScanning;
    scanner.StartScanning(true, true);
    scanner.OnScanSuccess(first);
    scanner.OnScanSuccess(second);
    firstLink := scanner.whatsappLink;
    scanner.StopScanning();
    assert scanner.whatsappLink == None;
    scanner.StartScanning(true, true);
    scanner.OnScanSuccess(second);
    secondLink := scanner.whatsappLink;
  }
}
