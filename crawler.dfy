/** The crawl engine (internal/crawler/crawler.go): routing of upstream
    responses, the catalog and detail handlers, the download path, the
    terminal status, and the profile fetch that precedes a task. The upstream
    fetches and downloads are inputs: each arrives as an outcome value. The
    concurrent callbacks are run one after another, in the order the
    responses are given. */
module Crawler {
  import opened Types
  import opened Text
  import opened Logger
  import opened Service

  const DetailPrefix := "https://www.pixiv.net/ajax/illust/"
  const UserPrefix := "https://www.pixiv.net/ajax/user/"
  const CrawlData := "crawl-datas"

  // Outcomes of ImageInfo downloads.
  const DownloadSucceeded := "success"
  const DownloadFailed := "failed"

  // ---------------------------------------------------------------------
  // Routing

  /** The catalog handler takes a response iff its URL has "/profile/all". */
  predicate IsCatalogURL(url: string) {
    Contains(url, "/profile/all")
  }

  /** The detail handler takes a response iff its URL has "/ajax/illust/"
      and does not have "profile". */
  predicate IsDetailURL(url: string) {
    Contains(url, "/ajax/illust/") && !Contains(url, "profile")
  }

  /** No response goes to both handlers: "/profile/all" has "profile" in it. */
  lemma RoutesExclusive(url: string)
    ensures !(IsCatalogURL(url) && IsDetailURL(url))
  {
    if IsCatalogURL(url) {
      var i :| 0 <= i <= |url| - 12 && OccursAt(url, "/profile/all", i);
      assert url[i..i + 12] == "/profile/all";
      assert url[i + 1..i + 8] == "profile" by {
        forall k | 0 <= k < 7 ensures url[i + 1 + k] == "profile"[k] {
          assert url[i + 1 + k] == url[i..i + 12][1 + k];
        }
      }
      ContainsAt(url, "profile", i + 1);
    }
  }

  /** The catalog request for one user. It is routed to the catalog handler
      and never to the detail handler, whatever the user id. */
  function ProfileURL(userID: string): (r: string)
    ensures IsCatalogURL(r) && !IsDetailURL(r)
  {
    var u := UserPrefix + userID + "/profile/all";
    var k := |UserPrefix| + |userID|;
    assert u[k..k + 12] == "/profile/all";
    ContainsAt(u, "/profile/all", k);
    RoutesExclusive(u);
    u
  }

  /** The detail request for one catalog entry; the entry's key can be read
      back from it, so distinct keys give distinct requests. */
  function DetailURL(illustID: string): (r: string)
    ensures KeyOf(r) == illustID
  {
    assert (DetailPrefix + illustID)[|DetailPrefix|..] == illustID;
    DetailPrefix + illustID
  }

  /** A detail request for a numeric catalog key is routed to the detail
      handler and never to the catalog handler. */
  lemma DetailURLRouting(illustID: string)
    requires AllDigits(illustID)
    ensures IsDetailURL(DetailURL(illustID))
    ensures !IsCatalogURL(DetailURL(illustID))
  {
    var u := DetailURL(illustID);
    assert u[21..34] == "/ajax/illust/";
    ContainsAt(u, "/ajax/illust/", 21);
    assert 'f' !in DetailPrefix;
    assert 'f' !in illustID by {
      forall i | 0 <= i < |illustID| ensures illustID[i] != 'f' {
        assert IsDigit(illustID[i]);
      }
    }
    assert 'f' !in u;
    MissingCharNotContained(u, "profile", 'f');
    MissingCharNotContained(u, "/profile/all", 'f');
  }

  // ---------------------------------------------------------------------
  // Paths: downloads and avatars are keyed by user, not by task

  /** Where an image is saved: <baseDir>/crawl-datas/<userID>/.download_imgs/<base name of the URL>. */
  function SavePath(baseDir: string, userID: string, imgURL: string): string {
    Join([baseDir, CrawlData, userID, ".download_imgs", Base(imgURL)])
  }

  /** Where a user's avatar is saved: <baseDir>/crawl-datas/<userID>/.avatars/<userID>.jpg. */
  function AvatarPath(baseDir: string, userID: string): string {
    Join([baseDir, CrawlData, userID, ".avatars", userID + ".jpg"])
  }

  /** The saved file keeps the URL's file name, and the same user and URL
      give the same path for every task. */
  lemma SavePathEndsWithFileName(baseDir: string, userID: string, imgURL: string)
    requires Base(imgURL) != "/"
    ensures Base(SavePath(baseDir, userID, imgURL)) == Base(imgURL)
  {
    BaseOfJoin([baseDir, CrawlData, userID, ".download_imgs", Base(imgURL)]);
  }

  /** The avatar file is named after the user it belongs to. */
  lemma AvatarPathNamesUser(baseDir: string, userID: string)
    requires '/' !in userID
    ensures Base(AvatarPath(baseDir, userID)) == userID + ".jpg"
  {
    BaseOfJoin([baseDir, CrawlData, userID, ".avatars", userID + ".jpg"]);
  }

  // ---------------------------------------------------------------------
  // The profile fetch (GetUserInfo)

  datatype Parsed<T> = Parsed(value: T) | Unparseable(error: string)

  /** The `body` of the upstream profile reply. */
  datatype UserBody = UserBody(userId: string, name: string, imageBig: string)

  /** How the profile request went: it could not be sent or received, or a
      reply came back with a status code and a body that did or did not
      parse. */
  datatype UserFetch =
    | RequestError(error: string)
    | UserReply(statusCode: int, body: Parsed<UserBody>)

  const StatusErrorPrefix := "API returned status: "

  /** GetUserInfo: a profile only from a 200 reply whose body parses; its id,
      name and avatar URL come from the body; the avatar path is built from
      the requested id and is set whether or not the avatar download
      (`avatarError`) succeeded; premium is always false. */
  function GetUserInfo(userID: string, baseDir: string, fetch: UserFetch,
                       avatarError: Option<string>): (r: Result<UserInfo>)
    ensures r.Success? <==> fetch.UserReply? && fetch.statusCode == 200 && fetch.body.Parsed?
    ensures fetch.UserReply? && fetch.statusCode != 200 ==>
              r == Failure(StatusErrorPrefix + IntToString(fetch.statusCode))
    ensures r.Success? ==>
              && r.value.userID == fetch.body.value.userId
              && r.value.name == fetch.body.value.name
              && r.value.avatarURL == fetch.body.value.imageBig
              && r.value.avatarPath == AvatarPath(baseDir, userID)
              && !r.value.premium
  {
    match fetch
    case RequestError(e) => Failure(e)
    case UserReply(code, body) =>
      if code != 200 then Failure(StatusErrorPrefix + IntToString(code))
      else match body
        case Unparseable(e) => Failure(e)
        case Parsed(b) => Success(UserInfo(b.userId, b.name, b.imageBig, AvatarPath(baseDir, userID), false))
  }

  /** The error for a non-200 reply names the status code: reading the
      number after the prefix gives the code back. */
  lemma StatusErrorNamesCode(userID: string, baseDir: string, code: int, body: Parsed<UserBody>,
                             avatarError: Option<string>)
    requires code != 200 && InInt64(code)
    ensures var r := GetUserInfo(userID, baseDir, UserReply(code, body), avatarError);
            && r.Failure?
            && |r.error| >= |StatusErrorPrefix|
            && Atoi(r.error[|StatusErrorPrefix|..]) == Some(code)
  {
    var msg := StatusErrorPrefix + IntToString(code);
    assert msg[|StatusErrorPrefix|..] == IntToString(code);
    AtoiIntToString(code);
  }

  // ---------------------------------------------------------------------
  // Responses and log lines

  /** A request either failed (colly's error callback) or its body arrived
      and did or did not parse. */
  datatype Fetch<T> = Fetched(body: Parsed<T>) | FetchError(response: string, error: string)

  /** The parts of a detail reply the handler reads. */
  datatype IllustBody = IllustBody(id: string, title: string, userName: string, original: string)

  /** One response to a detail request, and, in image mode, how the download
      of its image went (Some(error) when it failed). */
  datatype DetailResponse = DetailResponse(url: string, fetch: Fetch<IllustBody>, download: Option<string>)

  function FetchErrorMessage(url: string, response: string, error: string): string {
    "Request URL: " + url + " failed with response: " + response + "\nError: " + error
  }

  function StartMessage(userID: string, mode: string): string {
    "Starting spider for user " + userID + " with mode " + mode
  }

  const FinishedMessage := "Crawler finished"

  function PanicMessage(cause: string): string {
    "Crawler panicked: " + cause
  }

  // ---------------------------------------------------------------------
  // The catalog handler

  /** The lines the catalog step logs. */
  function CatalogLog(now: Timestamp, profileURL: string, catalog: Fetch<set<string>>): seq<string> {
    match catalog
    case FetchError(resp, err) => [FormatLine(now, ErrorLevel, FetchErrorMessage(profileURL, resp, err))]
    case Fetched(Unparseable(e)) => [FormatLine(now, ErrorLevel, "Failed to parse profile: " + e)]
    case Fetched(Parsed(ids)) => [FormatLine(now, InfoLevel, "Found " + NatToString(|ids|) + " illusts")]
  }

  /** The detail visits a catalog outcome leads to: one for each key of a
      parsed catalog, each key once, and none otherwise. */
  ghost predicate VisitsFor(catalog: Fetch<set<string>>, visits: seq<string>) {
    if catalog.Fetched? && catalog.body.Parsed? then
      var ids := catalog.body.value;
      && |visits| == |ids|
      && (forall i, j :: 0 <= i < j < |visits| ==> visits[i] != visits[j])
      && (forall id :: id in ids ==> DetailURL(id) in visits)
      && (forall v :: v in visits ==> exists id :: id in ids && v == DetailURL(id))
    else
      visits == []
  }

  /** The catalog callbacks: log the outcome and issue the detail visits. */
  method HandleCatalog(task: Task, now: Timestamp, catalog: Fetch<set<string>>)
    returns (visits: seq<string>)
    modifies task.logger`logs, task.logger`written
    ensures VisitsFor(catalog, visits)
    ensures task.logger.logs ==
            old(task.logger.logs) + CatalogLog(now, ProfileURL(task.userInfo.userID), catalog)
  {
    visits := [];
    match catalog
    case FetchError(resp, err) =>
      task.logger.Error(now, FetchErrorMessage(ProfileURL(task.userInfo.userID), resp, err));
    case Fetched(Unparseable(e)) =>
      task.logger.Error(now, "Failed to parse profile: " + e);
    case Fetched(Parsed(ids)) =>
      task.logger.Info(now, "Found " + NatToString(|ids|) + " illusts");
      var remaining := ids;
      ghost var issued: seq<string> := [];
      while remaining != {}
        invariant remaining <= ids
        invariant |issued| + |remaining| == |ids|
        invariant forall id :: id in ids <==> id in remaining || id in issued
        invariant forall id :: id in issued ==> id !in remaining
        invariant forall i, j :: 0 <= i < j < |issued| ==> issued[i] != issued[j]
        invariant |visits| == |issued|
        invariant forall i :: 0 <= i < |issued| ==> visits[i] == DetailURL(issued[i])
        decreases |remaining|
      {
        var id :| id in remaining;
        visits := visits + [DetailURL(id)];
        issued := issued + [id];
        remaining := remaining - {id};
      }
      forall i, j | 0 <= i < j < |visits| ensures visits[i] != visits[j] {
        assert KeyOf(visits[i]) == issued[i] != issued[j] == KeyOf(visits[j]);
      }
      forall id | id in ids ensures DetailURL(id) in visits {
        var k :| 0 <= k < |issued| && issued[k] == id;
        assert visits[k] == DetailURL(id);
      }
      forall v | v in visits ensures exists id :: id in ids && v == DetailURL(id) {
        var k :| 0 <= k < |visits| && visits[k] == v;
        assert issued[k] in ids;
      }
  }

  // ---------------------------------------------------------------------
  // The detail handler

  /** A detail response leads to a result iff it is routed to the detail
      handler, its body parses and its `urls.original` is not empty. */
  predicate Yields(d: DetailResponse) {
    IsDetailURL(d.url) && d.fetch.Fetched? && d.fetch.body.Parsed? && d.fetch.body.value.original != ""
  }

  /** The result one detail response appends (none or one). */
  function DetailResults(userID: string, d: DetailResponse): seq<TaskResult> {
    if Yields(d) then [TaskResult(userID, d.fetch.body.value.userName, [d.fetch.body.value.original])]
    else []
  }

  /** The image record one detail response appends (one in image mode when it
      yields, none otherwise). */
  function DetailImages(mode: string, userID: string, baseDir: string, d: DetailResponse): seq<ImageInfo> {
    if Yields(d) && mode == ImageMode then
      var img := d.fetch.body.value.original;
      [ImageInfo(img, SavePath(baseDir, userID, img), "",
                 if d.download.None? then DownloadSucceeded else DownloadFailed)]
    else []
  }

  /** The lines the download step logs for one image, in image mode only. */
  function DownloadLog(mode: string, userID: string, baseDir: string, now: Timestamp,
                       img: string, download: Option<string>): seq<string> {
    if mode != ImageMode then []
    else match download
      case Some(err) => [FormatLine(now, ErrorLevel, "Failed to download image " + img + ": " + err)]
      case None => [FormatLine(now, InfoLevel, "Downloaded image to " + SavePath(baseDir, userID, img))]
  }

  /** The lines one detail response logs. */
  function DetailLog(mode: string, userID: string, baseDir: string, now: Timestamp, d: DetailResponse): seq<string> {
    match d.fetch
    case FetchError(resp, err) => [FormatLine(now, ErrorLevel, FetchErrorMessage(d.url, resp, err))]
    case Fetched(_) =>
      if !Yields(d) then []
      else
        var img := d.fetch.body.value.original;
        [FormatLine(now, InfoLevel, "Found image: " + img)]
        + DownloadLog(mode, userID, baseDir, now, img, d.download)
  }

  /** A detail response adds a result exactly when it yields, and that result
      names the task's user, the illustration's author and its one URL. */
  lemma DetailResultsYield(userID: string, d: DetailResponse)
    ensures |DetailResults(userID, d)| == (if Yields(d) then 1 else 0)
    ensures Yields(d) ==>
              DetailResults(userID, d)[0] == TaskResult(userID, d.fetch.body.value.userName, [d.fetch.body.value.original])
  {
  }

  /** In image mode a response adds one image record per result, for the
      result's URL, saved under the user-keyed path with an empty checksum,
      "success" iff the download returned no error; in any other mode none. */
  lemma DetailImagesPairResults(mode: string, userID: string, baseDir: string, d: DetailResponse)
    ensures |DetailImages(mode, userID, baseDir, d)| == (if mode == ImageMode then |DetailResults(userID, d)| else 0)
    ensures |DetailImages(mode, userID, baseDir, d)| == 1 ==>
              var img := DetailResults(userID, d)[0].imageURLs[0];
              DetailImages(mode, userID, baseDir, d)[0] ==
                ImageInfo(img, SavePath(baseDir, userID, img), "", if d.download.None? then DownloadSucceeded else DownloadFailed)
  {
  }

  /** The catalog step logs one line: at INFO with the key count when the
      catalog parses, at ERROR otherwise. */
  lemma CatalogLogLine(now: Timestamp, profileURL: string, catalog: Fetch<set<string>>)
    ensures |CatalogLog(now, profileURL, catalog)| == 1
    ensures var e := ParseLine(CatalogLog(now, profileURL, catalog)[0]);
            && e.Some? && e.value.time == now
            && (e.value.level == InfoLevel <==> catalog.Fetched? && catalog.body.Parsed?)
            && (e.value.level != InfoLevel ==> e.value.level == ErrorLevel)
            && (catalog.Fetched? && catalog.body.Parsed? ==>
                  e.value.message == "Found " + NatToString(|catalog.body.value|) + " illusts")
  {
    match catalog
    case FetchError(resp, err) => ParseFormatLine(now, ErrorLevel, FetchErrorMessage(profileURL, resp, err));
    case Fetched(Unparseable(e)) => ParseFormatLine(now, ErrorLevel, "Failed to parse profile: " + e);
    case Fetched(Parsed(ids)) => ParseFormatLine(now, InfoLevel, "Found " + NatToString(|ids|) + " illusts");
  }

  /** The download step logs one line in image mode and none otherwise: at
      INFO naming the save path after a download, at ERROR naming the image
      and the error after a failure. */
  lemma DownloadLogLine(mode: string, userID: string, baseDir: string, now: Timestamp, img: string, download: Option<string>)
    ensures |DownloadLog(mode, userID, baseDir, now, img, download)| == (if mode == ImageMode then 1 else 0)
    ensures mode == ImageMode ==>
              var e := ParseLine(DownloadLog(mode, userID, baseDir, now, img, download)[0]);
              && e.Some? && e.value.time == now
              && e.value.level == (if download.None? then InfoLevel else ErrorLevel)
              && (download.None? ==> e.value.message == "Downloaded image to " + SavePath(baseDir, userID, img))
              && (download.Some? ==> e.value.message == "Failed to download image " + img + ": " + download.value)
  {
    if mode == ImageMode {
      match download
      case Some(err) => ParseFormatLine(now, ErrorLevel, "Failed to download image " + img + ": " + err);
      case None => ParseFormatLine(now, InfoLevel, "Downloaded image to " + SavePath(baseDir, userID, img));
    }
  }

  /** A failed fetch logs one ERROR line; a fetched response logs one line
      per result and image record it adds, the first at INFO naming the
      image found. */
  lemma DetailLogLines(mode: string, userID: string, baseDir: string, now: Timestamp, d: DetailResponse)
    ensures var log := DetailLog(mode, userID, baseDir, now, d);
            && (d.fetch.FetchError? ==>
                  |log| == 1 && ParseLine(log[0]).Some? && ParseLine(log[0]).value.level == ErrorLevel)
            && (d.fetch.Fetched? ==> |log| == |DetailResults(userID, d)| + |DetailImages(mode, userID, baseDir, d)|)
            && (Yields(d) ==> ParseLine(log[0]) == Some(Entry(now, InfoLevel, "Found image: " + d.fetch.body.value.original)))
  {
    DetailImagesPairResults(mode, userID, baseDir, d);
    match d.fetch
    case FetchError(resp, err) => ParseFormatLine(now, ErrorLevel, FetchErrorMessage(d.url, resp, err));
    case Fetched(_) =>
      if Yields(d) {
        var img := d.fetch.body.value.original;
        ParseFormatLine(now, InfoLevel, "Found image: " + img);
        DownloadLogLine(mode, userID, baseDir, now, img, d.download);
      }
  }

  /** The detail callbacks for one response: routing, the error callback, and
      the handling of a response that yields. */
  method HandleDetail(task: Task, baseDir: string, now: Timestamp, d: DetailResponse)
    modifies task`results, task`images, task.logger`logs, task.logger`written
    ensures task.results == old(task.results) + DetailResults(task.userInfo.userID, d)
    ensures task.images == old(task.images) + DetailImages(task.mode, task.userInfo.userID, baseDir, d)
    ensures task.logger.logs ==
            old(task.logger.logs) + DetailLog(task.mode, task.userInfo.userID, baseDir, now, d)
  {
    match d.fetch
    case FetchError(resp, err) =>
      task.logger.Error(now, FetchErrorMessage(d.url, resp, err));
    case Fetched(body) =>
      if Yields(d) {
        var img := body.value.original;
        task.logger.Info(now, "Found image: " + img);
        if task.mode == ImageMode {
          SaveImage(task, baseDir, now, img, d.download);
        }
        task.AddResult(TaskResult(task.userInfo.userID, body.value.userName, [img]));
      }
  }

  /** Image mode: download to the user-keyed path and record the outcome. */
  method SaveImage(task: Task, baseDir: string, now: Timestamp, img: string, download: Option<string>)
    requires task.mode == ImageMode
    modifies task`images, task.logger`logs, task.logger`written
    ensures task.images == old(task.images) +
              [ImageInfo(img, SavePath(baseDir, task.userInfo.userID, img), "",
                         if download.None? then DownloadSucceeded else DownloadFailed)]
    ensures task.logger.logs ==
            old(task.logger.logs) + DownloadLog(task.mode, task.userInfo.userID, baseDir, now, img, download)
  {
    var savePath := SavePath(baseDir, task.userInfo.userID, img);
    var status := DownloadSucceeded;
    if download.Some? {
      status := DownloadFailed;
      task.logger.Error(now, "Failed to download image " + img + ": " + download.value);
    } else {
      task.logger.Info(now, "Downloaded image to " + savePath);
    }
    task.AddImage(ImageInfo(img, savePath, "", status));
  }

  // ---------------------------------------------------------------------
  // What a sequence of detail responses appends

  function CrawlResults(userID: string, ds: seq<DetailResponse>): seq<TaskResult> {
    if ds == [] then []
    else CrawlResults(userID, ds[..|ds| - 1]) + DetailResults(userID, ds[|ds| - 1])
  }

  function CrawlImages(mode: string, userID: string, baseDir: string, ds: seq<DetailResponse>): seq<ImageInfo> {
    if ds == [] then []
    else CrawlImages(mode, userID, baseDir, ds[..|ds| - 1]) + DetailImages(mode, userID, baseDir, ds[|ds| - 1])
  }

  function DetailsLog(mode: string, userID: string, baseDir: string, now: Timestamp, ds: seq<DetailResponse>): seq<string> {
    if ds == [] then []
    else DetailsLog(mode, userID, baseDir, now, ds[..|ds| - 1]) + DetailLog(mode, userID, baseDir, now, ds[|ds| - 1])
  }

  /** How many responses lead to a result. */
  function YieldCount(ds: seq<DetailResponse>): nat {
    if ds == [] then 0 else YieldCount(ds[..|ds| - 1]) + (if Yields(ds[|ds| - 1]) then 1 else 0)
  }

  /** How many responses lead to a result whose download succeeded. */
  function DownloadedCount(ds: seq<DetailResponse>): nat {
    if ds == [] then 0
    else DownloadedCount(ds[..|ds| - 1]) + (if Yields(ds[|ds| - 1]) && ds[|ds| - 1].download.None? then 1 else 0)
  }

  function SuccessCount(images: seq<ImageInfo>): nat {
    if images == [] then 0
    else SuccessCount(images[..|images| - 1]) + (if images[|images| - 1].status == DownloadSucceeded then 1 else 0)
  }

  /** Exactly one result per yielding response, so never more results than
      responses, and one per response when every response yields. */
  lemma {:induction false} ResultCount(userID: string, ds: seq<DetailResponse>)
    ensures |CrawlResults(userID, ds)| == YieldCount(ds) <= |ds|
    ensures (forall i :: 0 <= i < |ds| ==> Yields(ds[i])) ==> YieldCount(ds) == |ds|
  {
    if ds != [] {
      ResultCount(userID, ds[..|ds| - 1]);
    }
  }

  /** Every result names the task's user and exactly one non-empty image URL. */
  lemma {:induction false} ResultShape(userID: string, ds: seq<DetailResponse>)
    ensures forall r :: r in CrawlResults(userID, ds) ==>
              r.userID == userID && |r.imageURLs| == 1 && r.imageURLs[0] != ""
  {
    if ds != [] {
      ResultShape(userID, ds[..|ds| - 1]);
    }
  }

  /** In image mode the image records pair up with the results, in order:
      same URL, the user-keyed save path, an empty checksum; in any other
      mode there are none. */
  lemma {:induction false} ImagesMatchResults(mode: string, userID: string, baseDir: string, ds: seq<DetailResponse>)
    ensures mode != ImageMode ==> CrawlImages(mode, userID, baseDir, ds) == []
    ensures mode == ImageMode ==>
              var images := CrawlImages(mode, userID, baseDir, ds);
              var results := CrawlResults(userID, ds);
              && |images| == |results|
              && forall i :: 0 <= i < |images| ==>
                   && |results[i].imageURLs| == 1
                   && images[i].url == results[i].imageURLs[0]
                   && images[i].path == SavePath(baseDir, userID, images[i].url)
                   && images[i].checksum == ""
                   && (images[i].status == DownloadSucceeded || images[i].status == DownloadFailed)
  {
    if ds != [] {
      ImagesMatchResults(mode, userID, baseDir, ds[..|ds| - 1]);
      ResultShape(userID, ds[..|ds| - 1]);
    }
  }

  /** Appending at most one image record adds its success, if any. */
  lemma SuccessCountAppend(a: seq<ImageInfo>, b: seq<ImageInfo>)
    requires |b| <= 1
    ensures SuccessCount(a + b) == SuccessCount(a) + (if b != [] && b[0].status == DownloadSucceeded then 1 else 0)
  {
    if b == [] {
      assert a + b == a;
    } else {
      assert (a + b)[..|a + b| - 1] == a;
    }
  }

  /** In image mode the records marked "success" are exactly those whose
      download returned no error. */
  lemma {:induction false} SuccessMatchesDownloads(userID: string, baseDir: string, ds: seq<DetailResponse>)
    ensures SuccessCount(CrawlImages(ImageMode, userID, baseDir, ds)) == DownloadedCount(ds)
  {
    if ds != [] {
      var front := ds[..|ds| - 1];
      SuccessMatchesDownloads(userID, baseDir, front);
      var last := ds[|ds| - 1];
      SuccessCountAppend(CrawlImages(ImageMode, userID, baseDir, front), DetailImages(ImageMode, userID, baseDir, last));
    }
  }

  // ---------------------------------------------------------------------
  // Detail responses against the catalog that issued them

  /** How many keys a catalog outcome has: those of a parsed catalog, else none. */
  function CatalogSize(catalog: Fetch<set<string>>): nat {
    if catalog.Fetched? && catalog.body.Parsed? then |catalog.body.value| else 0
  }

  /** The key a detail URL was built from. */
  function KeyOf(url: string): string {
    if |url| >= |DetailPrefix| then url[|DetailPrefix|..] else url
  }

  /** The URL is the detail URL of one of the keys. */
  predicate ForKey(ids: set<string>, url: string) {
    KeyOf(url) in ids && url == DetailURL(KeyOf(url))
  }

  /** Some response in `ds` answers the visit for key `id`. */
  ghost predicate Answered(ds: seq<DetailResponse>, id: string) {
    exists i :: 0 <= i < |ds| && ds[i].url == DetailURL(id)
  }

  /** Detail responses that answer visits a catalog outcome issued: each is
      for the detail URL of one of the catalog's keys, no key is answered
      twice, and there are none when the catalog was not parsed. */
  ghost predicate AnswersCatalog(catalog: Fetch<set<string>>, ds: seq<DetailResponse>) {
    if catalog.Fetched? && catalog.body.Parsed? then
      && (forall i :: 0 <= i < |ds| ==> ForKey(catalog.body.value, ds[i].url))
      && (forall i, j :: 0 <= i < j < |ds| ==> ds[i].url != ds[j].url)
    else ds == []
  }

  /** A sequence without repeats drawn from a set is no longer than the set. */
  lemma {:induction false} DistinctWithin(xs: seq<string>, s: set<string>)
    requires forall i, j :: 0 <= i < j < |xs| ==> xs[i] != xs[j]
    requires forall i :: 0 <= i < |xs| ==> xs[i] in s
    ensures |xs| <= |s|
  {
    if xs != [] {
      var x := xs[|xs| - 1];
      var front := xs[..|xs| - 1];
      forall i | 0 <= i < |front| ensures front[i] in s - {x} {
        assert front[i] == xs[i] != xs[|xs| - 1];
      }
      DistinctWithin(front, s - {x});
    }
  }

  /** A sequence has no more distinct elements than positions. */
  lemma {:induction false} ElementsWithin(xs: seq<string>)
    ensures |set x | x in xs| <= |xs|
  {
    if xs != [] {
      var front := xs[..|xs| - 1];
      ElementsWithin(front);
      assert (set x | x in xs) == (set x | x in front) + {xs[|xs| - 1]} by {
        assert xs == front + [xs[|xs| - 1]];
      }
    }
  }

  /** The keys the responses answer, in order. */
  function Keys(ds: seq<DetailResponse>): (r: seq<string>)
    ensures |r| == |ds|
  {
    seq(|ds|, i requires 0 <= i < |ds| => KeyOf(ds[i].url))
  }

  /** Responses that answer a catalog's visits are no more than its keys, and
      so neither are the results they append. */
  lemma CatalogBoundsResults(userID: string, catalog: Fetch<set<string>>, ds: seq<DetailResponse>)
    requires AnswersCatalog(catalog, ds)
    ensures |ds| <= CatalogSize(catalog)
    ensures |CrawlResults(userID, ds)| <= CatalogSize(catalog)
  {
    ResultCount(userID, ds);
    if catalog.Fetched? && catalog.body.Parsed? {
      var ids := catalog.body.value;
      var ks := Keys(ds);
      forall i | 0 <= i < |ks| ensures ks[i] in ids {
        assert ForKey(ids, ds[i].url);
      }
      forall i, j | 0 <= i < j < |ks| ensures ks[i] != ks[j] {
        assert ForKey(ids, ds[i].url) && ForKey(ids, ds[j].url);
      }
      DistinctWithin(ks, ids);
    }
  }

  /** When every key of a parsed catalog is answered and every response
      yields, there is exactly one result per catalog key. */
  lemma CompleteCrawlCount(userID: string, catalog: Fetch<set<string>>, ds: seq<DetailResponse>)
    requires AnswersCatalog(catalog, ds)
    requires catalog.Fetched? && catalog.body.Parsed?
    requires forall id :: id in catalog.body.value ==> Answered(ds, id)
    requires forall i :: 0 <= i < |ds| ==> Yields(ds[i])
    ensures |CrawlResults(userID, ds)| == |catalog.body.value|
  {
    var ids := catalog.body.value;
    var ks := Keys(ds);
    CatalogBoundsResults(userID, catalog, ds);
    ResultCount(userID, ds);
    KeysCoverAnswered(ids, ds);
    ElementsWithin(ks);
    var named := set x | x in ks;
    assert named == ids + (named - ids);
  }

  /** Every answered key is among the keys the responses carry. */
  lemma KeysCoverAnswered(ids: set<string>, ds: seq<DetailResponse>)
    requires forall id :: id in ids ==> Answered(ds, id)
    ensures ids <= set x | x in Keys(ds)
  {
    var ks := Keys(ds);
    forall id | id in ids ensures id in ks {
      var i :| 0 <= i < |ds| && ds[i].url == DetailURL(id);
      assert ks[i] == KeyOf(DetailURL(id)) == id;
    }
  }

  /** Answering a catalog is kept by every prefix of the responses. */
  lemma AnswersCatalogPrefix(catalog: Fetch<set<string>>, ds: seq<DetailResponse>, p: seq<DetailResponse>)
    requires AnswersCatalog(catalog, ds)
    requires p <= ds
    ensures AnswersCatalog(catalog, p)
  {
  }

  // ---------------------------------------------------------------------
  // The crawl driver (StartCrawler)

  /** Where a trapped fault happens: nowhere, after a number of detail
      responses were handled, or while the task data is being saved after
      the status was set to completed. */
  datatype Fault = NoFault | FaultDuringCrawl(handled: nat, cause: string) | FaultDuringSave(cause: string)

  /** The detail responses handled before the crawl ends. */
  function Handled(ds: seq<DetailResponse>, fault: Fault): (r: seq<DetailResponse>)
    ensures r <= ds
    ensures fault.FaultDuringCrawl? ==> |r| == if fault.handled < |ds| then fault.handled else |ds|
    ensures !fault.FaultDuringCrawl? ==> r == ds
  {
    if fault.FaultDuringCrawl? && fault.handled < |ds| then ds[..fault.handled] else ds
  }

  /** The statuses the driver writes, in order. */
  function StatusWrites(fault: Fault): seq<string> {
    match fault
    case NoFault => [Completed]
    case FaultDuringCrawl(_, _) => [Failed]
    case FaultDuringSave(_) => [Completed, Failed]
  }

  /** A status history that left "running" once, for a terminal status, and
      never came back to it. */
  predicate SingleTransition(h: seq<string>) {
    |h| == 2 && h[0] == Running && (h[1] == Completed || h[1] == Failed)
  }

  /** The last line the driver writes. */
  function FinalLines(fault: Fault, now: Timestamp): seq<string> {
    match fault
    case NoFault => [FormatLine(now, InfoLevel, FinishedMessage)]
    case FaultDuringCrawl(_, c) => [FormatLine(now, ErrorLevel, PanicMessage(c))]
    case FaultDuringSave(c) => [FormatLine(now, InfoLevel, FinishedMessage), FormatLine(now, ErrorLevel, PanicMessage(c))]
  }

  lemma AppendAssoc<T>(a: seq<T>, b: seq<T>, c: seq<T>)
    ensures (a + b) + c == a + (b + c)
  {
  }

  /** One more response handled appends what that response contributes. */
  lemma CrawlStep(mode: string, userID: string, baseDir: string, now: Timestamp, xs: seq<DetailResponse>, i: nat)
    requires i < |xs|
    ensures CrawlResults(userID, xs[..i + 1]) == CrawlResults(userID, xs[..i]) + DetailResults(userID, xs[i])
    ensures CrawlImages(mode, userID, baseDir, xs[..i + 1]) ==
            CrawlImages(mode, userID, baseDir, xs[..i]) + DetailImages(mode, userID, baseDir, xs[i])
    ensures DetailsLog(mode, userID, baseDir, now, xs[..i + 1]) ==
            DetailsLog(mode, userID, baseDir, now, xs[..i]) + DetailLog(mode, userID, baseDir, now, xs[i])
  {
    assert xs[..i + 1][..i] == xs[..i];
  }

  /** The detail callbacks for each response, in the order given. */
  method HandleDetails(task: Task, baseDir: string, now: Timestamp, xs: seq<DetailResponse>)
    modifies task`results, task`images, task.logger`logs, task.logger`written
    ensures task.results == old(task.results) + CrawlResults(task.userInfo.userID, xs)
    ensures task.images == old(task.images) + CrawlImages(task.mode, task.userInfo.userID, baseDir, xs)
    ensures task.logger.logs ==
            old(task.logger.logs) + DetailsLog(task.mode, task.userInfo.userID, baseDir, now, xs)
  {
    var userID, mode := task.userInfo.userID, task.mode;
    var i := 0;
    while i < |xs|
      invariant 0 <= i <= |xs|
      invariant task.results == old(task.results) + CrawlResults(userID, xs[..i])
      invariant task.images == old(task.images) + CrawlImages(mode, userID, baseDir, xs[..i])
      invariant task.logger.logs == old(task.logger.logs) + DetailsLog(mode, userID, baseDir, now, xs[..i])
    {
      HandleDetail(task, baseDir, now, xs[i]);
      CrawlStep(mode, userID, baseDir, now, xs, i);
      AppendAssoc(old(task.results), CrawlResults(userID, xs[..i]), DetailResults(userID, xs[i]));
      AppendAssoc(old(task.images), CrawlImages(mode, userID, baseDir, xs[..i]), DetailImages(mode, userID, baseDir, xs[i]));
      AppendAssoc(old(task.logger.logs), DetailsLog(mode, userID, baseDir, now, xs[..i]), DetailLog(mode, userID, baseDir, now, xs[i]));
      i := i + 1;
    }
    assert xs[..i] == xs;
  }

  /** The recovery boundary: a trapped fault logs its cause and marks the
      task failed; otherwise the task is marked completed. */
  method Finish(task: Task, now: Timestamp, fault: Fault)
    modifies task`status, task`statusHistory, task.logger`logs, task.logger`written
    ensures task.status == (if fault.NoFault? then Completed else Failed)
    ensures task.statusHistory == old(task.statusHistory) + StatusWrites(fault)
    ensures task.Valid()
    ensures task.logger.logs == old(task.logger.logs) + FinalLines(fault, now)
  {
    match fault
    case FaultDuringCrawl(_, cause) =>
      task.logger.Error(now, PanicMessage(cause));
      task.UpdateStatus(Failed);
    case NoFault =>
      task.logger.Info(now, FinishedMessage);
      task.UpdateStatus(Completed);
    case FaultDuringSave(cause) =>
      task.logger.Info(now, FinishedMessage);
      task.UpdateStatus(Completed);
      task.logger.Error(now, PanicMessage(cause));
      task.UpdateStatus(Failed);
  }

  /** The results of the responses handled before the crawl ends: no more
      than the catalog's keys, and one per key when nothing faults, every key
      is answered and every response yields. */
  lemma HandledCount(userID: string, catalog: Fetch<set<string>>, details: seq<DetailResponse>, fault: Fault)
    requires AnswersCatalog(catalog, details)
    ensures |CrawlResults(userID, Handled(details, fault))| <= CatalogSize(catalog)
    ensures && fault.NoFault? && catalog.Fetched? && catalog.body.Parsed?
            && (forall id :: id in catalog.body.value ==> Answered(details, id))
            && (forall i :: 0 <= i < |details| ==> Yields(details[i]))
            ==> |CrawlResults(userID, Handled(details, fault))| == CatalogSize(catalog)
  {
    AnswersCatalogPrefix(catalog, details, Handled(details, fault));
    CatalogBoundsResults(userID, catalog, Handled(details, fault));
    if && fault.NoFault? && catalog.Fetched? && catalog.body.Parsed?
       && (forall id :: id in catalog.body.value ==> Answered(details, id))
       && (forall i :: 0 <= i < |details| ==> Yields(details[i])) {
      CompleteCrawlCount(userID, catalog, details);
    }
  }

  /** Runs one task's crawl: log the start, handle the catalog, handle the
      detail responses in the order given, then set the terminal status.
      Results already appended are kept when a fault is trapped. */
  method StartCrawler(task: Task, baseDir: string, now: Timestamp, catalog: Fetch<set<string>>,
                      details: seq<DetailResponse>, fault: Fault) returns (visits: seq<string>)
    requires AnswersCatalog(catalog, details)
    modifies task`status, task`statusHistory, task`results, task`images
    modifies task.logger`logs, task.logger`written
    ensures VisitsFor(catalog, visits)
    ensures task.status == (if fault.NoFault? then Completed else Failed)
    ensures task.statusHistory == old(task.statusHistory) + StatusWrites(fault)
    ensures task.Valid()
    ensures old(task.statusHistory) == [Running] && !fault.FaultDuringSave? ==>
              SingleTransition(task.statusHistory)
    ensures task.results == old(task.results) + CrawlResults(task.userInfo.userID, Handled(details, fault))
    ensures task.images ==
            old(task.images) + CrawlImages(task.mode, task.userInfo.userID, baseDir, Handled(details, fault))
    ensures task.logger.logs ==
            old(task.logger.logs)
            + [FormatLine(now, InfoLevel, StartMessage(task.userInfo.userID, task.mode))]
            + CatalogLog(now, ProfileURL(task.userInfo.userID), catalog)
            + DetailsLog(task.mode, task.userInfo.userID, baseDir, now, Handled(details, fault))
            + FinalLines(fault, now)
    ensures |task.results| <= |old(task.results)| + CatalogSize(catalog)
    ensures && fault.NoFault? && catalog.Fetched? && catalog.body.Parsed?
            && (forall id :: id in catalog.body.value ==> Answered(details, id))
            && (forall i :: 0 <= i < |details| ==> Yields(details[i]))
            ==> |task.results| == |old(task.results)| + CatalogSize(catalog)
  {
    task.logger.Info(now, StartMessage(task.userInfo.userID, task.mode));
    visits := HandleCatalog(task, now, catalog);
    HandleDetails(task, baseDir, now, Handled(details, fault));
    Finish(task, now, fault);
    HandledCount(task.userInfo.userID, catalog, details, fault);
  }
}
