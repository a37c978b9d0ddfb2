/**
 * The `UrlShorten` form component as a state machine: its form fields, the
 * alert it shows, the cached list of short URLs and that list's mirror in
 * the `urlDatabase` storage key. Each handler is one method; the answer of
 * the remote endpoint it calls is a parameter, and the request it would send
 * is its result (None when it sends none).
 */
module UrlShorten {
  import opened JsString
  import opened UrlList

  /** The modal alert's title and message. */
  datatype Alert = Alert(title: string, message: string)

  const EmptyAlert := Alert("", "")
  const ScrapeFailedAlert := Alert("錯誤", "取得頁面資訊失敗")
  const EnterUrlAlert := Alert("錯誤", "請輸入連結或貼上完整網址")
  const ShortenFailedAlert := Alert("錯誤", "短網址產生失敗")
  const CodeInUseAlert := Alert("無法建立短網址", "這個短網址可能已經被使用了，請嘗試使用不同的名稱後再試一次。")
  const UpdateFailedAlert := Alert("錯誤", "更新啟用狀態失敗")

  /** What `/api/scrape` answered: a page title, or an exception. */
  datatype ScrapeOutcome = Scraped(title: string) | ScrapeThrew

  /** What `/api/shorten` answered. An absent or empty `shortUrl` is falsy in
      JavaScript and is written here as "". */
  datatype ShortenOutcome = Responded(shortUrl: string, shortCode: string) | ShortenThrew

  /** What `/api/updateUrlActive` answered. */
  datatype UpdateOutcome = Updated | UpdateThrew

  /** The body of the create request. */
  datatype ShortenRequest = ShortenRequest(
    originalUrl: string,
    customCode: Option<string>,
    isUrlActive: bool,
    comment: string,
    password: string)

  /** The body of the update request. */
  datatype UpdateRequest = UpdateRequest(shortCode: string, isUrlActive: bool)

  /** The update request the toggle handler sends for the record it finds in
      the already-toggled list; None where JavaScript dereferences `undefined`. */
  function UpdateRequestFor(found: Option<ShortUrlRecord>): Option<UpdateRequest> {
    match found
    case None => None
    case Some(item) => Some(UpdateRequest(item.shortCode, item.isUrlActive))
  }

  /** The toggle handler sends a request exactly when the code is cached, and
      then asks for the negation of the first such record's flag. */
  lemma ToggleRequestNegatesFlag(list: seq<ShortUrlRecord>, code: string)
    ensures var req := UpdateRequestFor(FindByCode(ToggleActive(list, code), code));
      && (req.Some? <==> HasCode(list, code))
      && (req.Some? ==> req.value.shortCode == code)
      && (req.Some? ==> req.value.isUrlActive == !FindByCode(list, code).value.isUrlActive)
  {
  }

  class UrlShortenForm {
    // the cache, and what was last written to the `urlDatabase` key
    var urlList: seq<ShortUrlRecord>
    var stored: seq<ShortUrlRecord>
    // the form fields
    var originUrl: string
    var comment: string
    var password: string
    var isUrlActive: bool
    var customCode: string   // the uncontrolled short-URL input
    var metaTitle: string
    // the modal alert
    var alert: Alert
    var showAlert: bool

    /** Every handler leaves the stored copy equal to the in-memory list. */
    ghost predicate Valid()
      reads this
    {
      stored == urlList
    }

    /** Mounting: the list is whatever the storage key held (the empty list
        when it held nothing); every field has its initial value. */
    constructor (initial: seq<ShortUrlRecord>)
      ensures Valid() && urlList == initial
      ensures originUrl == "" && comment == "" && password == "" && customCode == ""
      ensures metaTitle == "" && isUrlActive
      ensures alert == EmptyAlert && !showAlert
    {
      urlList := initial;
      stored := initial;
      originUrl, comment, password, customCode := "", "", "", "";
      metaTitle := "";
      isUrlActive := true;
      alert := EmptyAlert;
      showAlert := false;
    }

    /** Typing into the URL input. */
    method SetOriginUrl(v: string)
      requires Valid()
      modifies this`originUrl
      ensures Valid()
      ensures originUrl == v
    {
      originUrl := v;
    }

    /** Typing into the short-URL (custom code) input. */
    method SetCustomCode(v: string)
      requires Valid()
      modifies this`customCode
      ensures Valid()
      ensures customCode == v
    {
      customCode := v;
    }

    /** Typing into the password input. */
    method SetPassword(v: string)
      requires Valid()
      modifies this`password
      ensures Valid()
      ensures password == v
    {
      password := v;
    }

    /** Typing into the comment textarea. */
    method SetComment(v: string)
      requires Valid()
      modifies this`comment
      ensures Valid()
      ensures comment == v
    {
      comment := v;
    }

    /** Clicking the "active" checkbox. */
    method FlipActiveField()
      requires Valid()
      modifies this`isUrlActive
      ensures Valid()
      ensures isUrlActive == !old(isUrlActive)
    {
      isUrlActive := !isUrlActive;
    }

    /** Closing the alert. */
    method CloseAlert()
      requires Valid()
      modifies this`showAlert
      ensures Valid()
      ensures !showAlert
    {
      showAlert := false;
    }

    /** `handleGetMeta`: with a blank URL nothing is requested and nothing
        changes; otherwise the untrimmed URL is sent to the scrape endpoint and
        its title fills both `meta.title` and the comment, or the alert reports
        the failure and the comment is kept. */
    method HandleGetMeta(outcome: ScrapeOutcome) returns (request: Option<string>)
      requires Valid()
      modifies this`metaTitle, this`comment, this`alert, this`showAlert
      ensures Valid()
      ensures Trim(old(originUrl)) == [] ==>
                request == None && unchanged(this)
      ensures Trim(old(originUrl)) != [] ==>
                request == Some(old(originUrl)) &&
                match outcome
                case Scraped(title) =>
                  metaTitle == title && comment == title && unchanged(this`alert, this`showAlert)
                case ScrapeThrew =>
                  alert == ScrapeFailedAlert && showAlert && unchanged(this`metaTitle, this`comment)
    {
      if Trim(originUrl) == [] {
        return None;
      }
      request := Some(originUrl);
      match outcome
      case Scraped(title) =>
        metaTitle := title;
        comment := title;
      case ScrapeThrew =>
        alert := ScrapeFailedAlert;
        showAlert := true;
    }

    /** `handleShorten`. A blank URL sends nothing and only raises the alert.
        Otherwise the trimmed URL and the other fields are sent; a response
        with a short URL prepends the new record to the list, persists it and
        clears every field but the active flag; a response without one, or an
        exception, leaves list and fields alone and raises an alert. */
    method HandleShorten(outcome: ShortenOutcome, now: string) returns (request: Option<ShortenRequest>)
      requires Valid()
      modifies this
      ensures Valid()
      ensures isUrlActive == old(isUrlActive)
      ensures Trim(old(originUrl)) == [] ==>
                && request == None
                && alert == EnterUrlAlert && showAlert
                && urlList == old(urlList)
                && unchanged(this`originUrl, this`comment, this`password, this`customCode, this`metaTitle)
      ensures Trim(old(originUrl)) != [] ==>
                request == Some(ShortenRequest(Trim(old(originUrl)), CustomCodeParam(old(customCode)),
                                               old(isUrlActive), old(comment), old(password)))
      ensures Trim(old(originUrl)) != [] && outcome.Responded? && outcome.shortUrl != "" ==>
                && urlList == [NewRecord(outcome.shortCode, Trim(old(originUrl)), old(isUrlActive),
                                         old(password), old(comment), now)] + old(urlList)
                && originUrl == "" && comment == "" && password == "" && customCode == ""
                && metaTitle == ""
                && unchanged(this`alert, this`showAlert)
      ensures Trim(old(originUrl)) != [] && outcome.Responded? && outcome.shortUrl == "" ==>
                && alert == ShortenFailedAlert && showAlert
                && urlList == old(urlList)
                && unchanged(this`originUrl, this`comment, this`password, this`customCode, this`metaTitle)
      ensures Trim(old(originUrl)) != [] && outcome.ShortenThrew? ==>
                && alert == CodeInUseAlert && showAlert
                && urlList == old(urlList)
                && unchanged(this`originUrl, this`comment, this`password, this`customCode, this`metaTitle)
    {
      var originalUrl := Trim(originUrl);
      var code := CustomCodeParam(customCode);
      if originalUrl == [] {
        alert := EnterUrlAlert;
        showAlert := true;
        return None;
      }
      request := Some(ShortenRequest(originalUrl, code, isUrlActive, comment, password));
      match outcome
      case Responded(shortUrl, shortCode) =>
        if shortUrl != "" {
          customCode := shortUrl;
          var newData := NewRecord(shortCode, originalUrl, isUrlActive, password, comment, now);
          var updated := [newData] + urlList;
          urlList := updated;
          stored := updated;
          originUrl := "";
          comment := "";
          metaTitle := "";
          password := "";
          customCode := "";
        } else {
          alert := ShortenFailedAlert;
          showAlert := true;
        }
      case ShortenThrew =>
        // the first alert is overwritten at once by the second
        alert := ShortenFailedAlert;
        alert := CodeInUseAlert;
        showAlert := true;
    }

    /** The part of `toggleUrlActive` before its `await`: snapshot the list,
        flip the matching records, persist that optimistically, and work out
        the update request (None when no record matches, where the source
        dereferences `undefined` and lands in its catch block). */
    method BeginToggle(code: string) returns (snapshot: seq<ShortUrlRecord>, request: Option<UpdateRequest>)
      requires Valid()
      modifies this`urlList, this`stored
      ensures Valid()
      ensures snapshot == old(urlList)
      ensures urlList == ToggleActive(old(urlList), code)
      ensures request == UpdateRequestFor(FindByCode(urlList, code))
    {
      snapshot := urlList;
      var updatedList := ToggleActive(urlList, code);
      urlList := updatedList;
      stored := updatedList;
      request := UpdateRequestFor(FindByCode(updatedList, code));
    }

    /** The part of `toggleUrlActive` after its `await`: when no request could
        be sent or the update failed, raise the alert and restore the snapshot
        in memory and in storage; otherwise keep the optimistic list. */
    method SettleToggle(snapshot: seq<ShortUrlRecord>, request: Option<UpdateRequest>, outcome: UpdateOutcome)
      requires Valid()
      modifies this`urlList, this`stored, this`alert, this`showAlert
      ensures Valid()
      ensures request.Some? && outcome.Updated? ==>
                unchanged(this`urlList, this`alert, this`showAlert)
      ensures request.None? || outcome.UpdateThrew? ==>
                urlList == snapshot && alert == UpdateFailedAlert && showAlert
    {
      if request.None? || outcome.UpdateThrew? {
        alert := UpdateFailedAlert;
        showAlert := true;
        urlList := snapshot;
        stored := snapshot;
      }
    }

    /** `toggleUrlActive`: on success the list (and its stored copy) is the
        toggled list; when the code is not cached or the update fails, it is
        the list as it was on entry, and the alert reports the failure. The
        form fields are never touched. */
    method ToggleUrlActive(code: string, outcome: UpdateOutcome) returns (request: Option<UpdateRequest>)
      requires Valid()
      modifies this`urlList, this`stored, this`alert, this`showAlert
      ensures Valid()
      ensures request.Some? <==> HasCode(old(urlList), code)
      ensures request.Some? ==> request.value.shortCode == code
      ensures request.Some? ==> request.value.isUrlActive == !FindByCode(old(urlList), code).value.isUrlActive
      ensures request.Some? && outcome.Updated? ==>
                urlList == ToggleActive(old(urlList), code) && unchanged(this`alert, this`showAlert)
      ensures request.None? || outcome.UpdateThrew? ==>
                urlList == old(urlList) && alert == UpdateFailedAlert && showAlert
    {
      var snapshot;
      snapshot, request := BeginToggle(code);
      ToggleRequestNegatesFlag(snapshot, code);
      assert request.Some? <==> HasCode(snapshot, code);
      ghost var toggled := urlList;
      SettleToggle(snapshot, request, outcome);
      assert request.Some? && outcome.Updated? ==> urlList == toggled;
    }
  }

  /** Two successful toggles of one code leave the cache and the store as
      they were. */
  method ToggleTwiceIsIdentity(form: UrlShortenForm, code: string)
    requires form.Valid() && HasCode(form.urlList, code)
    modifies form
    ensures form.Valid() && form.urlList == old(form.urlList)
  {
    ghost var start := form.urlList;
    var first := form.ToggleUrlActive(code, Updated);
    ToggleKeepsCodes(start, code, code);
    var second := form.ToggleUrlActive(code, Updated);
    ToggleTwiceRestores(start, code);
  }
}
