/** The rules the two create handlers (`add_to_watched_list`,
    `add_to_want_to_watch_list`) apply to the submitted form before they
    store anything: a blank image URL counts as none, the season is
    dropped unless the title is a series, an image (URL or uploaded file)
    is required, and an uploaded file wins over both URLs. */
module Forms {
  import opened Wrappers
  import opened Http
  import opened Text
  import opened Models

  const SeriesType := "TV Series"
  const StaticImagesPrefix := "/static/images/"
  const MissingImage := BadRequest("Either image_url or image_file must be provided")

  /** An uploaded file, of which only the client's file name matters here. */
  datatype Upload = Upload(filename: string)

  /** `image_file is not None and bool(image_file.filename)`. */
  predicate HasFile(upload: Option<Upload>) {
    upload.Some? && upload.value.filename != ""
  }

  /** `image_url.strip() or None` (applied only to a given URL). */
  function BlankToNone(url: Option<string>): (r: Option<string>)
    ensures r.None? <==> url.None? || IsBlank(url.value)
    ensures r.Some? ==> r.value == Trim(url.value, Whitespace) && r.value != ""
  {
    if url.None? || IsBlank(url.value) then None else Some(Trim(url.value, Whitespace))
  }

  /** Where an uploaded image is served from: the fresh random name (the hex
      form of a `uuid4`, a parameter here) joined to the client's file name. */
  function StoredImageUrl(token: string, filename: string): string {
    StaticImagesPrefix + token + "_" + filename
  }

  /** The image URL and poster URL a create stores. */
  datatype Images = Images(imageUrl: string, posterUrl: string)

  /** The image rules shared by both create handlers. */
  function ChooseImages(imageUrl: Option<string>, upload: Option<Upload>, posterUrl: Option<string>, token: string)
    : (r: Result<Images, HttpError>)
    ensures r.Err? <==> BlankToNone(imageUrl).None? && !HasFile(upload)
    ensures r.Err? ==> r.error == MissingImage
    ensures r.Ok? && HasFile(upload) ==>
              var u := StoredImageUrl(token, upload.value.filename);
              r.value == Images(u, u)
    ensures r.Ok? && !HasFile(upload) ==>
              && r.value.imageUrl == Trim(imageUrl.value, Whitespace) != ""
              && r.value.posterUrl == if Truthy(posterUrl) then posterUrl.value else r.value.imageUrl
  {
    var url := BlankToNone(imageUrl);
    if url.None? && !HasFile(upload) then Err(MissingImage)
    else if HasFile(upload) then
      var u := StoredImageUrl(token, upload.value.filename);
      Ok(Images(u, u))
    else Ok(Images(url.value, if Truthy(posterUrl) then posterUrl.value else url.value))
  }

  /** `if content_type != "TV Series": season = None`. */
  function SeasonFor(contentType: string, season: Option<int>): (r: Option<int>)
    ensures contentType != SeriesType ==> r.None?
    ensures contentType == SeriesType ==> r == season
  {
    if contentType != SeriesType then None else season
  }

  /** The form fields of a watched-list create. */
  datatype WatchedForm = WatchedForm(
    title: string,
    score: int,
    comment: string,
    watchDate: Date,
    contentType: string,
    season: Option<int>,
    synopsis: Option<string>,
    releaseYear: Option<int>,
    releaseDate: Option<Date>,
    runtime: Option<int>,
    genres: Option<string>,
    tmdbId: Option<int>,
    tmdbRating: Option<real>,
    posterUrl: Option<string>,
    topRank: Option<int>,
    imageUrl: Option<string>)

  /** The form fields of a watch-list create. */
  datatype WantToWatchForm = WantToWatchForm(
    title: string,
    launchDate: Date,
    excitement: int,
    contentType: string,
    season: Option<int>,
    synopsis: Option<string>,
    releaseYear: Option<int>,
    runtime: Option<int>,
    genres: Option<string>,
    tmdbId: Option<int>,
    tmdbRating: Option<real>,
    posterUrl: Option<string>,
    imageUrl: Option<string>)

  /** The row `add_to_watched_list` inserts under the id the store hands
      out, or the 400 it raises before touching the store. */
  function PrepareWatched(form: WatchedForm, upload: Option<Upload>, token: string, id: int)
    : (r: Result<Watched, HttpError>)
    ensures r.Err? <==> BlankToNone(form.imageUrl).None? && !HasFile(upload)
    ensures r.Err? ==> r.error == MissingImage
    ensures r.Ok? ==> r.value.id == id && r.value.season == SeasonFor(form.contentType, form.season)
    ensures r.Ok? && form.contentType != SeriesType ==> r.value.season.None?
    ensures r.Ok? && HasFile(upload) ==>
              && r.value.imageUrl == StoredImageUrl(token, upload.value.filename)
              && r.value.posterUrl == Some(r.value.imageUrl)
    ensures r.Ok? && !HasFile(upload) ==>
              && r.value.imageUrl == Trim(form.imageUrl.value, Whitespace)
              && r.value.posterUrl == Some(if Truthy(form.posterUrl) then form.posterUrl.value else r.value.imageUrl)
    ensures r.Ok? ==>
              && r.value.title == form.title && r.value.score == form.score && r.value.comment == form.comment
              && r.value.watchDate == form.watchDate && r.value.contentType == form.contentType
              && r.value.synopsis == form.synopsis && r.value.releaseYear == form.releaseYear
              && r.value.releaseDate == form.releaseDate && r.value.runtime == form.runtime
              && r.value.genres == form.genres && r.value.tmdbId == form.tmdbId
              && r.value.tmdbRating == form.tmdbRating && r.value.topRank == form.topRank
  {
    match ChooseImages(form.imageUrl, upload, form.posterUrl, token)
    case Err(e) => Err(e)
    case Ok(images) =>
      Ok(Watched(
        id, form.title, form.comment, form.score, images.imageUrl, form.watchDate, form.contentType,
        SeasonFor(form.contentType, form.season), form.synopsis, form.releaseYear, form.releaseDate,
        form.runtime, form.genres, form.tmdbId, form.tmdbRating, Some(images.posterUrl), form.topRank))
  }

  /** The row `add_to_want_to_watch_list` inserts under the id the store
      hands out, or the 400 it raises before touching the store. */
  function PrepareWantToWatch(form: WantToWatchForm, upload: Option<Upload>, token: string, id: int)
    : (r: Result<WantToWatch, HttpError>)
    ensures r.Err? <==> BlankToNone(form.imageUrl).None? && !HasFile(upload)
    ensures r.Err? ==> r.error == MissingImage
    ensures r.Ok? ==> r.value.id == id && r.value.season == SeasonFor(form.contentType, form.season)
    ensures r.Ok? && form.contentType != SeriesType ==> r.value.season.None?
    ensures r.Ok? && HasFile(upload) ==>
              && r.value.imageUrl == StoredImageUrl(token, upload.value.filename)
              && r.value.posterUrl == Some(r.value.imageUrl)
    ensures r.Ok? && !HasFile(upload) ==>
              && r.value.imageUrl == Trim(form.imageUrl.value, Whitespace)
              && r.value.posterUrl == Some(if Truthy(form.posterUrl) then form.posterUrl.value else r.value.imageUrl)
    ensures r.Ok? ==>
              && r.value.title == form.title && r.value.launchDate == form.launchDate
              && r.value.excitement == form.excitement && r.value.contentType == form.contentType
              && r.value.synopsis == form.synopsis && r.value.releaseYear == form.releaseYear
              && r.value.runtime == form.runtime && r.value.genres == form.genres
              && r.value.tmdbId == form.tmdbId && r.value.tmdbRating == form.tmdbRating
  {
    match ChooseImages(form.imageUrl, upload, form.posterUrl, token)
    case Err(e) => Err(e)
    case Ok(images) =>
      Ok(WantToWatch(
        id, form.title, images.imageUrl, form.launchDate, form.excitement, form.contentType,
        SeasonFor(form.contentType, form.season), form.synopsis, form.releaseYear, form.runtime,
        form.genres, form.tmdbId, form.tmdbRating, Some(images.posterUrl)))
  }

  /** The record a watched-list create builds breaks the range constraints
      exactly when the score is outside 0..10 or a series was given a
      season below 1: a season sent with any other type is dropped first. */
  lemma PreparedWatchedValid(form: WatchedForm, upload: Option<Upload>, token: string, id: int)
    requires PrepareWatched(form, upload, token, id).Ok?
    ensures PrepareWatched(form, upload, token, id).value.Valid() <==>
              && 0 <= form.score <= 10
              && (form.contentType == SeriesType && form.season.Some? ==> form.season.value >= 1)
  {
  }

  /** The same for a watch-list create, with the excitement in 1..10. */
  lemma PreparedWantToWatchValid(form: WantToWatchForm, upload: Option<Upload>, token: string, id: int)
    requires PrepareWantToWatch(form, upload, token, id).Ok?
    ensures PrepareWantToWatch(form, upload, token, id).value.Valid() <==>
              && 1 <= form.excitement <= 10
              && (form.contentType == SeriesType && form.season.Some? ==> form.season.value >= 1)
  {
  }
}
