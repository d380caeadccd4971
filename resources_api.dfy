/**
 * The resource-library endpoints (backend/app/api/v1/resources.py): the
 * admin gate on categories, the upload checks (size, then extension), the
 * comma-separated tags, and the view, download, like and rating endpoints.
 */
module ResourcesApi {
  import opened Common
  import opened Text
  import opened UserModel
  import opened Deps
  import opened Community
  import opened Resources

  /** `MAX_FILE_SIZE`: 50 MiB. */
  const MaxFileSize: nat := 50 * 1024 * 1024

  /** `UPLOAD_DIR`. */
  const UploadDir: string := "uploads/resources"

  /** `ALLOWED_EXTENSIONS`. */
  const AllowedExtensions: set<string> := {
    ".pdf", ".doc", ".docx", ".xls", ".xlsx", ".ppt", ".pptx",
    ".txt", ".rtf", ".odt", ".ods", ".odp",
    ".jpg", ".jpeg", ".png", ".gif", ".svg",
    ".mp4", ".avi", ".mov", ".wmv", ".flv",
    ".mp3", ".wav", ".ogg",
    ".zip", ".rar", ".7z"
  }

  /** The index of the last `c` in `s` (`str.rfind`), if any. */
  function LastIndex(s: string, c: char): (r: Option<nat>)
    ensures r.None? <==> c !in s
    ensures r.Some? ==> r.value < |s| && s[r.value] == c && c !in s[r.value + 1..]
  {
    if s == [] then None
    else if s[|s| - 1] == c then Some(|s| - 1)
    else
      var init := s[..|s| - 1];
      var r := LastIndex(init, c);
      assert s == init + [s[|s| - 1]];
      if r.None? then r
      else
        assert s[r.value + 1..] == init[r.value + 1..] + [s[|s| - 1]];
        r
  }

  /** Text holding no `c` appended after a string leaves its last `c` where it was. */
  lemma {:induction false} LastIndexAppend(a: string, b: string, c: char)
    requires c !in b
    ensures LastIndex(a + b, c) == LastIndex(a, c)
  {
    if b == [] {
      assert a + b == a;
    } else {
      var front := b[..|b| - 1];
      assert c !in front by {
        assert forall x :: x in front ==> x in b;
      }
      LastIndexAppend(a, front, c);
      LastIndexSkip(a + b, c);
      assert (a + b)[..|a + b| - 1] == a + front;
    }
  }

  /** A string not ending in `c` has its last `c` where its front has it. */
  lemma LastIndexSkip(s: string, c: char)
    requires s != [] && s[|s| - 1] != c
    ensures LastIndex(s, c) == LastIndex(s[..|s| - 1], c)
  {
  }

  /** The last `c` of `w + [c] + rest`, when `rest` holds none, is the one after `w`. */
  lemma LastIndexAt(w: string, rest: string, c: char)
    requires c !in rest
    ensures LastIndex(w + [c] + rest, c) == Some(|w|)
  {
    LastIndexAppend(w + [c], rest, c);
    var wc := w + [c];
    assert wc[|wc| - 1] == c;
  }

  /** `PurePosixPath(p).name`: what follows the last `/`. */
  function BaseName(path: string): (r: string)
    ensures '/' !in r
    ensures |r| <= |path| && r == path[|path| - |r|..]
  {
    match LastIndex(path, '/')
    case None => path
    case Some(i) => path[i + 1..]
  }

  /** Text without a `/` appended to a path extends its name. */
  lemma BaseNameAppend(stem: string, ext: string)
    requires '/' !in ext
    ensures BaseName(stem + ext) == BaseName(stem) + ext
  {
    LastIndexAppend(stem, ext, '/');
    var li := LastIndex(stem, '/');
    if li.Some? {
      assert (stem + ext)[li.value + 1..] == stem[li.value + 1..] + ext;
    }
  }

  /** A path not ending in `/` has a non-empty name. */
  lemma BaseNameNonEmpty(stem: string)
    requires stem != [] && stem[|stem| - 1] != '/'
    ensures BaseName(stem) != []
  {
    var li := LastIndex(stem, '/');
    if li.Some? {
      assert li.value != |stem| - 1;
    }
  }

  /** The suffix of a path's name: from its last dot on, unless that dot is the name's first or last character. */
  function NameSuffix(name: string): (r: string)
    ensures r == [] || (|r| >= 2 && r[0] == '.' && '.' !in r[1..])
    ensures |r| <= |name| && r == name[|name| - |r|..]
  {
    match LastIndex(name, '.')
    case None => []
    case Some(i) =>
      if 0 < i < |name| - 1 then
        assert name[i..][1..] == name[i + 1..];
        name[i..]
      else []
  }

  /** The characters of a tail of `s` are characters of `s`. */
  lemma SuffixChars(s: string, k: nat)
    requires k <= |s|
    ensures forall x :: x in s[k..] ==> x in s
  {
    forall x | x in s[k..] ensures x in s {
      var j :| 0 <= j < |s[k..]| && s[k..][j] == x;
      assert s[k + j] == x;
    }
  }

  /** A tail of a tail of `s` is a tail of `s`. */
  lemma TailOfTail(s: string, t: string, k: nat)
    requires |t| <= |s| && t == s[|s| - |t|..] && k <= |t|
    ensures t[|t| - k..] == s[|s| - k..]
  {
    var x, y := t[|t| - k..], s[|s| - k..];
    forall j | 0 <= j < k ensures x[j] == y[j] {
      assert t[|t| - k + j] == s[|s| - |t| + (|t| - k + j)];
    }
  }

  /** `PurePosixPath(p).suffix`. */
  function Suffix(path: string): (r: string)
    ensures r == [] || (|r| >= 2 && r[0] == '.' && '.' !in r[1..] && '/' !in r)
    ensures |r| <= |path| && r == path[|path| - |r|..]
  {
    var name := BaseName(path);
    var r := NameSuffix(name);
    SuffixChars(name, |name| - |r|);
    TailOfTail(path, name, |r|);
    r
  }

  /** A non-empty name followed by a dot and a dot-free extension has that extension as its suffix. */
  lemma NameSuffixOf(w: string, body: string)
    requires w != [] && body != [] && '.' !in body
    ensures NameSuffix(w + ['.'] + body) == ['.'] + body
  {
    var name := w + ['.'] + body;
    LastIndexAt(w, body, '.');
    assert name[|w|..] == ['.'] + body;
  }

  /** A path ending in a non-empty name followed by an extension has that extension as its suffix. */
  lemma SuffixOfNamedFile(stem: string, ext: string)
    requires stem != [] && stem[|stem| - 1] != '/'
    requires |ext| >= 2 && ext[0] == '.' && '.' !in ext[1..] && '/' !in ext
    ensures Suffix(stem + ext) == ext
  {
    BaseNameAppend(stem, ext);
    BaseNameNonEmpty(stem);
    assert ext == ['.'] + ext[1..];
    assert BaseName(stem) + ext == BaseName(stem) + ['.'] + ext[1..];
    NameSuffixOf(BaseName(stem), ext[1..]);
  }

  /** A path whose name holds no dot has no suffix. */
  lemma NoDotNoSuffix(path: string)
    requires '.' !in path
    ensures Suffix(path) == []
  {
    assert forall x :: x in BaseName(path) ==> x in path;
  }

  /** An extension as the allow-list spells them: a dot and lower-case letters or digits. */
  predicate SimpleExtension(e: string)
  {
    |e| >= 2 && e[0] == '.' && forall k :: 1 <= k < |e| ==> 'a' <= e[k] <= 'z' || '0' <= e[k] <= '9'
  }

  lemma AllowedAreSimple(e: string)
    requires e in AllowedExtensions
    ensures SimpleExtension(e)
  {
  }

  /** An extension of that shape is a single suffix, is its own lower case, and so is the lower case of its upper case. */
  lemma SimpleExtensionShape(e: string)
    requires SimpleExtension(e)
    ensures '.' !in e[1..] && '/' !in e
    ensures Lower(e) == e && Lower(Upper(e)) == e
    ensures |Upper(e)| >= 2 && Upper(e)[0] == '.' && '.' !in Upper(e)[1..] && '/' !in Upper(e)
  {
    SimpleExtensionPlain(e);
    SimpleExtensionLower(e);
    SimpleExtensionUpper(e);
  }

  lemma SimpleExtensionPlain(e: string)
    requires SimpleExtension(e)
    ensures '.' !in e[1..] && '/' !in e
  {
    forall k | 0 <= k < |e[1..]| ensures e[1..][k] != '.' {
      assert e[1..][k] == e[k + 1];
    }
    forall k | 0 <= k < |e| ensures e[k] != '/' {
    }
  }

  lemma SimpleExtensionLower(e: string)
    requires SimpleExtension(e)
    ensures Lower(e) == e && Lower(Upper(e)) == e
  {
    forall k | 0 <= k < |e| ensures Lower(e)[k] == e[k] && Lower(Upper(e))[k] == e[k] {
    }
  }

  lemma SimpleExtensionUpper(e: string)
    requires SimpleExtension(e)
    ensures |Upper(e)| >= 2 && Upper(e)[0] == '.' && '.' !in Upper(e)[1..] && '/' !in Upper(e)
  {
    var up := Upper(e);
    forall k | 0 <= k < |up[1..]| ensures up[1..][k] != '.' {
      assert up[1..][k] == up[k + 1];
    }
    forall k | 0 <= k < |up| ensures up[k] != '/' {
    }
  }

  /**
   * The upload checks: a file over 50 MiB is refused (413) before its
   * extension, lowercased, is looked up in the allow-list (400 when absent).
   * The result is the extension kept for the stored name.
   */
  function UploadCheck(size: nat, filename: string): (r: Result<string>)
    ensures r == Fail(PayloadTooLarge) <==> size > MaxFileSize
    ensures r.Ok? <==> size <= MaxFileSize && Lower(Suffix(filename)) in AllowedExtensions
    ensures r.Fail? && size <= MaxFileSize ==> r.error == BadRequest
    ensures r.Ok? ==> r.value in AllowedExtensions && r.value == Lower(Suffix(filename))
  {
    if size > MaxFileSize then Fail(PayloadTooLarge)
    else
      var ext := Lower(Suffix(filename));
      if ext !in AllowedExtensions then Fail(BadRequest) else Ok(ext)
  }

  /** A file of allowed size named with an allowed extension is accepted. */
  lemma UploadAcceptsAllowedExtension(size: nat, stem: string, ext: string)
    requires size <= MaxFileSize && ext in AllowedExtensions
    requires stem != [] && stem[|stem| - 1] != '/'
    ensures UploadCheck(size, stem + ext) == Ok(ext)
  {
    AllowedAreSimple(ext);
    SimpleExtensionShape(ext);
    SuffixOfNamedFile(stem, ext);
  }

  /** The extension's letter case does not matter: an upper-case allowed extension is accepted as the lower-case one. */
  lemma UploadIgnoresExtensionCase(size: nat, stem: string, ext: string)
    requires size <= MaxFileSize && ext in AllowedExtensions
    requires stem != [] && stem[|stem| - 1] != '/'
    ensures UploadCheck(size, stem + Upper(ext)) == Ok(ext)
  {
    AllowedAreSimple(ext);
    SimpleExtensionShape(ext);
    SuffixOfNamedFile(stem, Upper(ext));
    assert Lower(Suffix(stem + Upper(ext))) == ext;
  }

  /** A file whose name has no dot is refused. */
  lemma UploadRefusesNoSuffix(size: nat, filename: string)
    requires size <= MaxFileSize && '.' !in filename
    ensures UploadCheck(size, filename) == Fail(BadRequest)
  {
    NoDotNoSuffix(filename);
    assert Lower([]) == [];
    if [] in AllowedExtensions {
      AllowedAreSimple([]);
    }
  }

  /** `[tag.strip() for tag in tags.split(",")] if tags else None`. */
  function ParseTags(tags: Option<string>): (r: Option<seq<string>>)
    ensures r.None? <==> tags.None? || tags.value == []
    ensures r.Some? ==> |r.value| == |Split(tags.value, ',')|
    ensures r.Some? ==> forall i :: 0 <= i < |r.value| ==>
              ',' !in r.value[i] && (r.value[i] == [] || (!IsSpace(r.value[i][0]) && !IsSpace(r.value[i][|r.value[i]| - 1])))
  {
    if tags.None? || tags.value == [] then None
    else
      var pieces := Split(tags.value, ',');
      Some(seq(|pieces|, i requires 0 <= i < |pieces| => Strip(pieces[i])))
  }

  /** Tags free of commas and of surrounding whitespace come back unchanged from their comma-joined form. */
  lemma ParseTagsRoundTrip(tags: seq<string>)
    requires |tags| >= 1 && Join(tags, ',') != []
    requires forall i :: 0 <= i < |tags| ==> ',' !in tags[i] && (tags[i] == [] || (!IsSpace(tags[i][0]) && !IsSpace(tags[i][|tags[i]| - 1])))
    ensures ParseTags(Some(Join(tags, ','))) == Some(tags)
  {
    var joined := Join(tags, ',');
    SplitJoin(tags, ',');
    var pieces := Split(joined, ',');
    var stripped := seq(|pieces|, i requires 0 <= i < |pieces| => Strip(pieces[i]));
    assert ParseTags(Some(joined)) == Some(stripped);
    forall i | 0 <= i < |tags| ensures stripped[i] == tags[i] {
      StripClean(tags[i]);
    }
    assert stripped == tags;
  }

  /** The body limits of `ResourceCategoryCreate` (422 past them). */
  function ValidateResourceCategory(c: ResourceCategoryCreate): (r: Option<HttpError>)
    ensures r.None? <==> |c.name| <= 100 && |c.slug| <= 100
    ensures r.Some? ==> r.value == Unprocessable
  {
    if |c.name| > 100 || |c.slug| > 100 then Some(Unprocessable) else None
  }

  /** The body limits of `ResourceCreate`: a title of at most 255 and URLs of at most 500 characters. */
  predicate ResourceCreateValid(c: ResourceCreate)
  {
    |c.title| <= MaxSlugLength
    && (c.fileUrl.Some? ==> |c.fileUrl.value| <= 500)
    && (c.externalUrl.Some? ==> |c.externalUrl.value| <= 500)
  }

  /** `create_category`: a body within its limits (422), then the admin gate (403). */
  method CreateCategory(s: ResourceStore, caller: User, c: ResourceCategoryCreate) returns (r: Result<ResourceCategory>)
    requires s.Valid()
    modifies s
    ensures s.Valid()
    ensures r.Fail? <==> ValidateResourceCategory(c).Some? || !IsAdmin(caller.role)
    ensures r.Fail? ==> s.categories == old(s.categories)
    ensures r.Fail? && ValidateResourceCategory(c).None? ==> r.error == Forbidden
    ensures r.Ok? ==> r.value.id !in old(s.categories) && s.categories == old(s.categories)[r.value.id := r.value]
                      && r.value.createdBy == caller.id
  {
    var invalid := ValidateResourceCategory(c);
    if invalid.Some? {
      return Fail(invalid.value);
    }
    var gate := AdminRoleNameGate(caller);
    if gate.Fail? {
      return Fail(gate.error);
    }
    var created := s.CreateResourceCategory(c, caller.id);
    r := Ok(created);
  }

  /** `create_resource_item`: any signed-in user may add a resource whose body is within its limits. */
  method CreateResourceItem(s: ResourceStore, caller: User, c: ResourceCreate) returns (r: Result<Resource>)
    requires s.Valid()
    modifies s
    ensures s.Valid()
    ensures r.Fail? <==> !ResourceCreateValid(c)
    ensures r.Fail? ==> r.error == Unprocessable && s.resources == old(s.resources)
    ensures r.Ok? ==> r.value.id !in old(s.resources) && s.resources == old(s.resources)[r.value.id := r.value]
                      && r.value.authorId == caller.id && r.value.slug == TitleSlug(c.title)
  {
    if !ResourceCreateValid(c) {
      return Fail(Unprocessable);
    }
    var created := s.CreateResource(c, caller.id);
    r := Ok(created);
  }

  /** Where an upload is stored: the upload directory, the generated id and the extension. */
  function StoredPath(fileId: string, ext: string): (p: string)
    ensures |p| == |UploadDir| + 1 + |fileId| + |ext|
    ensures p[|p| - |ext|..] == ext
  {
    UploadDir + "/" + fileId + ext
  }

  /**
   * `upload_resource_file`. The checks of `UploadCheck` come first; `saved`
   * says whether writing the file worked (500 otherwise). The record built
   * from the query parameters is validated inside the handler, so a title
   * or path past its limit is a 500 there. The resource belongs to the
   * caller's organization, carries the parsed tags, and records the file's
   * name, size and media type.
   */
  method UploadResourceFile(s: ResourceStore, caller: User, size: nat, filename: string, contentType: Option<string>,
                            title: string, description: string, categoryId: nat, resourceType: ResourceType,
                            tags: Option<string>, isPublic: bool, fileId: string, saved: bool)
    returns (r: Result<Resource>)
    requires s.Valid()
    modifies s
    ensures s.Valid()
    ensures UploadCheck(size, filename).Fail? ==> r == Fail(UploadCheck(size, filename).error)
    ensures UploadCheck(size, filename).Ok? && !saved ==> r == Fail(ServerError)
    ensures r.Fail? ==> s.resources == old(s.resources)
    ensures r.Ok? <==> UploadCheck(size, filename).Ok? && saved && |title| <= MaxSlugLength
                       && |StoredPath(fileId, UploadCheck(size, filename).value)| <= 500
    ensures r.Ok? ==> var ext := UploadCheck(size, filename).value;
                      r.value.id !in old(s.resources) && s.resources == old(s.resources)[r.value.id := r.value]
                      && r.value.fileUrl == Some(StoredPath(fileId, ext)) && r.value.title == title
                      && r.value.organizationId == caller.organizationId && r.value.authorId == caller.id
                      && r.value.tags == ParseTags(tags)
                      && r.value.fileName == Some(filename) && r.value.fileSize == Some(size) && r.value.mimeType == contentType
  {
    var check := UploadCheck(size, filename);
    if check.Fail? {
      return Fail(check.error);
    }
    if !saved {
      return Fail(ServerError);
    }
    var path := StoredPath(fileId, check.value);
    var data := ResourceCreate(title, description, resourceType, categoryId, Some(path), None,
                               caller.organizationId, isPublic, ParseTags(tags));
    if !ResourceCreateValid(data) {
      return Fail(ServerError);
    }
    var created := StoreUpload(s, caller, data, filename, size, contentType);
    r := Ok(created);
  }

  /** The database steps of `upload_resource_file`: the resource row, then the file's metadata on it. */
  method StoreUpload(s: ResourceStore, caller: User, data: ResourceCreate, filename: string, size: nat, contentType: Option<string>)
    returns (res: Resource)
    requires s.Valid()
    modifies s
    ensures s.Valid()
    ensures res.id !in old(s.resources) && s.resources == old(s.resources)[res.id := res]
    ensures res.fileUrl == data.fileUrl && res.title == data.title && res.organizationId == data.organizationId
    ensures res.tags == data.tags && res.authorId == caller.id
    ensures res.fileName == Some(filename) && res.fileSize == Some(size) && res.mimeType == contentType
  {
    var created := s.CreateResource(data, caller.id);
    ghost var table := s.resources;
    s.SetFileMetadata(created.id, filename, size, contentType);
    res := s.resources[created.id];
    assert res == created.(fileName := Some(filename), fileSize := Some(size), mimeType := contentType);
    assert s.resources == table[created.id := res];
  }

  /**
   * `get_resource_item`: 404 for a missing id; otherwise the view count goes
   * up by one and the resource is answered as reloaded after the commit.
   */
  method GetResourceItem(s: ResourceStore, id: nat) returns (r: Result<Resource>)
    requires s.Valid()
    modifies s
    ensures s.Valid()
    ensures r.Fail? <==> id !in old(s.resources)
    ensures r.Fail? ==> r.error == NotFound && s.resources == old(s.resources)
    ensures r.Ok? ==> r.value == old(s.resources)[id].(viewCount := old(s.resources)[id].viewCount + 1)
                      && s.resources == old(s.resources)[id := r.value]
  {
    if id !in s.resources {
      return Fail(NotFound);
    }
    s.IncrementResourceViews(id);
    r := Ok(s.resources[id]);
  }

  /** The name a download is offered under: the stored file name, or `resource_<id>` with the stored path's suffix. */
  function DownloadName(res: Resource): (n: string)
    requires res.fileUrl.Some?
    ensures res.fileName.Some? && res.fileName.value != [] ==> n == res.fileName.value
    ensures !(res.fileName.Some? && res.fileName.value != []) ==>
              |n| >= 9 && n[..9] == "resource_" && Suffix(n) == Suffix(res.fileUrl.value)
  {
    if res.fileName.Some? && res.fileName.value != [] then res.fileName.value
    else
      GeneratedName(res.id, Suffix(res.fileUrl.value));
      "resource_" + Decimal(res.id) + Suffix(res.fileUrl.value)
  }

  /** The generated name `resource_<id><suffix>` starts with `resource_` and keeps the suffix. */
  lemma GeneratedName(id: nat, sfx: string)
    requires sfx == [] || (|sfx| >= 2 && sfx[0] == '.' && '.' !in sfx[1..] && '/' !in sfx)
    ensures var n := "resource_" + Decimal(id) + sfx;
            |n| >= 9 && n[..9] == "resource_" && Suffix(n) == sfx
  {
    var stem := "resource_" + Decimal(id);
    assert stem[9..] == Decimal(id);
    GeneratedNameKeepsSuffix(stem, sfx);
    assert (stem + sfx)[..9] == stem[..9];
  }

  /** A generated name (`resource_` and digits) followed by a path's suffix has that suffix. */
  lemma GeneratedNameKeepsSuffix(stem: string, sfx: string)
    requires |stem| > 9 && stem[..9] == "resource_" && AllDigits(stem[9..])
    requires sfx == [] || (|sfx| >= 2 && sfx[0] == '.' && '.' !in sfx[1..] && '/' !in sfx)
    ensures Suffix(stem + sfx) == sfx
  {
    assert IsDigit(stem[|stem| - 1]) by {
      assert stem[|stem| - 1] == stem[9..][|stem| - 10];
    }
    if sfx == [] {
      assert stem + sfx == stem;
      forall k | 0 <= k < |stem| ensures stem[k] != '.' {
        if k >= 9 {
          assert stem[k] == stem[9..][k - 9];
        } else {
          assert stem[k] == "resource_"[k];
        }
      }
      NoDotNoSuffix(stem);
    } else {
      SuffixOfNamedFile(stem, sfx);
    }
  }

  /**
   * `download_resource`: 404 for a missing resource, one without a file
   * path, or one whose file is not among `files`; otherwise the download
   * count goes up by one and the file is offered under `DownloadName`.
   */
  method DownloadResource(s: ResourceStore, id: nat, files: set<string>) returns (r: Result<string>)
    requires s.Valid()
    modifies s
    ensures s.Valid()
    ensures r.Ok? <==> id in old(s.resources) && old(s.resources)[id].fileUrl.Some?
                       && old(s.resources)[id].fileUrl.value != [] && old(s.resources)[id].fileUrl.value in files
    ensures r.Fail? ==> r.error == NotFound && s.resources == old(s.resources)
    ensures r.Ok? ==> var res := old(s.resources)[id];
                      r.value == DownloadName(res)
                      && s.resources == old(s.resources)[id := res.(downloadCount := res.downloadCount + 1)]
  {
    if id !in s.resources {
      return Fail(NotFound);
    }
    var res := s.resources[id];
    if res.fileUrl.None? || res.fileUrl.value == [] {
      return Fail(NotFound);
    }
    if res.fileUrl.value !in files {
      return Fail(NotFound);
    }
    s.IncrementResourceDownloads(id);
    r := Ok(DownloadName(res));
  }

  /** `like_resource`: 404 for a missing resource; otherwise the toggle, with the count following the like rows. */
  method LikeResource(s: ResourceStore, caller: User, id: nat) returns (r: Result<bool>)
    requires s.Valid()
    modifies s
    ensures s.Valid()
    ensures r.Fail? <==> id !in old(s.resources)
    ensures r.Fail? ==> r.error == NotFound && s.resources == old(s.resources) && s.likes == old(s.likes)
    ensures r.Ok? ==> (r.value <==> (id, caller.id) !in old(s.likes))
                      && s.likes == ToggleRows(old(s.likes), id, caller.id).0
                      && id in s.resources && s.resources[id].likeCount == |Likers(s.likes, id)|
  {
    if id !in s.resources {
      return Fail(NotFound);
    }
    var liked := s.ToggleResourceLike(id, caller.id);
    r := Ok(liked);
  }

  /**
   * `rate_resource`: a rating outside 1..5 is refused by the schema (422),
   * a missing resource is 404; otherwise the caller's rating is inserted or
   * replaced and the resource's count and mean follow its rows.
   */
  method RateResource(s: ResourceStore, caller: User, id: nat, rating: int, review: Option<string>) returns (r: Result<Rating>)
    requires s.Valid()
    modifies s
    ensures s.Valid()
    ensures r.Fail? <==> !(1 <= rating <= 5) || id !in old(s.resources)
    ensures !(1 <= rating <= 5) ==> r == Fail(Unprocessable)
    ensures 1 <= rating <= 5 && id !in old(s.resources) ==> r == Fail(NotFound)
    ensures r.Fail? ==> s.ratings == old(s.ratings) && s.resources == old(s.resources)
    ensures r.Ok? ==> r.value == Rating(caller.id, rating, review)
                      && s.ratings == old(s.ratings)[id := Upsert(RowsOf(old(s.ratings), id), caller.id, rating, review)]
                      && s.resources == old(s.resources)[id := old(s.resources)[id].(
                           ratingAverage := Mean(RowsOf(s.ratings, id)), ratingCount := |RowsOf(s.ratings, id)|)]
                      && 1.0 <= s.resources[id].ratingAverage <= 5.0
    ensures s.categories == old(s.categories) && s.likes == old(s.likes)
  {
    if !(1 <= rating <= 5) {
      return Fail(Unprocessable);
    }
    if id !in s.resources {
      return Fail(NotFound);
    }
    var row := s.RateResource(id, caller.id, rating, review);
    r := Ok(row);
  }
}
