/** Order intake: what a customer's upload becomes on disk and in the
    `orders` table, how upload failures are reported, the HTML escaping of
    the notification, and a customer's own order list. */
module Orders {
  import opened Wrappers
  import opened Text
  import opened Store
  import opened Listing

  const NotAuthenticated := "Not authenticated"
  const PlaceFailed := "Failed to place order"
  const FileTooLarge := "File too large. Max 10MB per file."
  const TooManyFiles := "Too many files. Max 8 files."
  const OnlyImagesAndPdf := "Only image files and PDF are allowed."
  const UploadErrorPrefix := "Upload error: "
  /** The status Express's default error handler answers with. */
  const UnhandledError := "Internal Server Error"

  /** Upload limits: files per request and bytes per file. */
  const MaxFiles: nat := 8
  const MaxFileSize: nat := 10 * 1024 * 1024
  const PublicPrefix := "/uploads/"

  // ---------------------------------------------------------------------------
  // Stored file names

  /** The characters a stored file name keeps: [A-Za-z0-9._-]. */
  predicate IsNameChar(c: char) {
    ('a' <= c <= 'z') || ('A' <= c <= 'Z') || ('0' <= c <= '9') || c == '.' || c == '_' || c == '-'
  }

  predicate AllNameChars(s: string) {
    forall i :: 0 <= i < |s| ==> IsNameChar(s[i])
  }

  function SafeChar(c: char): (d: char)
    ensures IsNameChar(d)
    ensures IsNameChar(c) ==> d == c
  {
    if IsNameChar(c) then c else '_'
  }

  /** The original name with every character outside [A-Za-z0-9._-] replaced by '_'. */
  function SafeName(name: string): (r: string)
    ensures |r| == |name|
    ensures AllNameChars(r)
  {
    seq(|name|, i requires 0 <= i < |name| => SafeChar(name[i]))
  }

  /** Allowed characters stay where they are and every other one becomes '_'. */
  lemma SafeNameReplaces(name: string, i: nat)
    requires i < |name|
    ensures IsNameChar(name[i]) ==> SafeName(name)[i] == name[i]
    ensures !IsNameChar(name[i]) ==> SafeName(name)[i] == '_'
  {
  }

  /** A name is left as it is exactly when it is already safe; so sanitising twice is sanitising once. */
  lemma SafeNameFixes(name: string)
    ensures SafeName(name) == name <==> AllNameChars(name)
    ensures SafeName(SafeName(name)) == SafeName(name)
  {
    if AllNameChars(name) {
      assert forall i :: 0 <= i < |name| ==> SafeName(name)[i] == name[i];
    }
  }

  /** The name multer's disk storage gives a file: the upload time in
      milliseconds, a '-', and the sanitised original name. */
  function StoredFilename(stamp: nat, originalName: string): (r: string)
    ensures |r| == |DecimalString(stamp)| + 1 + |originalName|
  {
    DecimalString(stamp) + "-" + SafeName(originalName)
  }

  /** The stored name splits at its first '-' into the upload time, which it
      gives back, and the sanitised original name; it is a single path
      component, never "." or "..", and holds only [A-Za-z0-9._-]. */
  lemma StoredFilenameParts(stamp: nat, originalName: string)
    ensures var r := StoredFilename(stamp, originalName);
            var d := |DecimalString(stamp)|;
            && r[..d] == DecimalString(stamp) && DecimalValue(r[..d]) == stamp
            && (forall i :: 0 <= i < d ==> r[i] != '-')
            && r[d] == '-'
            && r[d + 1..] == SafeName(originalName)
            && AllNameChars(r)
            && r != "." && r != ".."
  {
    var r := StoredFilename(stamp, originalName);
    var ds := DecimalString(stamp);
    assert r[..|ds|] == ds;
    assert r[|ds| + 1..] == SafeName(originalName);
    forall i | 0 <= i < |r|
      ensures IsNameChar(r[i])
    {
      if i < |ds| {
        assert IsDigit(ds[i]);
      } else if i > |ds| {
        assert r[i] == SafeName(originalName)[i - |ds| - 1];
      }
    }
    assert r[|ds|] == '-';
  }

  // ---------------------------------------------------------------------------
  // What multer accepts and how its failures are answered

  /** The file filter: an image of any kind or a PDF. A missing MIME type is "". */
  predicate FileFilter(mimeType: string)
    ensures FileFilter(mimeType) && mimeType != "application/pdf" ==> |mimeType| > 5 && mimeType[..6] == "image/"
    ensures mimeType in {"application/pdf", "image/png", "image/jpeg", "image/svg+xml"} ==> FileFilter(mimeType)
    ensures StartsWith(mimeType, "application/") && mimeType != "application/pdf" ==> !FileFilter(mimeType)
  {
    assert StartsWith(mimeType, "application/") ==> !StartsWith(mimeType, "image/") by {
      if StartsWith(mimeType, "application/") { assert mimeType[0] == 'a'; }
    }
    StartsWith(mimeType, "image/") || mimeType == "application/pdf"
  }

  /** The error that reaches the router's error handler. */
  datatype UploadFailure =
    | Multer(code: string)   // a multer.MulterError and its code
    | Other                  // anything else

  /** What the filter raises for a file it refuses. */
  function FilterFailure(mimeType: string): (f: Option<UploadFailure>)
    ensures f.None? <==> FileFilter(mimeType)
  {
    if FileFilter(mimeType) then None else Some(Multer("LIMIT_UNEXPECTED_FILE"))
  }

  /** The error handler: `None` when the error is passed on to Express. */
  function UploadErrorReply(f: UploadFailure): (r: Option<Reply<string>>)
    ensures r.None? <==> f.Other?
  {
    match f
    case Other => None
    case Multer(code) =>
      if code == "LIMIT_FILE_SIZE" then Some(Error(413, FileTooLarge))
      else if code == "LIMIT_FILE_COUNT" then Some(Error(400, TooManyFiles))
      else if code == "LIMIT_UNEXPECTED_FILE" then Some(Error(400, OnlyImagesAndPdf))
      else Some(Error(400, UploadErrorPrefix + code))
  }

  /** Every multer error gets an answer: 413 exactly for an oversized file,
      400 for every other code, and an unknown code is named in the message. */
  lemma UploadErrorStatuses(code: string)
    ensures UploadErrorReply(Multer(code)).Some?
    ensures UploadErrorReply(Multer(code)).value.Error?
    ensures UploadErrorReply(Multer(code)).value.status == 413 <==> code == "LIMIT_FILE_SIZE"
    ensures UploadErrorReply(Multer(code)).value.status == 400 <==> code != "LIMIT_FILE_SIZE"
    ensures code !in {"LIMIT_FILE_SIZE", "LIMIT_FILE_COUNT", "LIMIT_UNEXPECTED_FILE"} ==>
              UploadErrorReply(Multer(code)).value.message == UploadErrorPrefix + code
  {
  }

  /** A refused file type is answered with 400 and the image/PDF message. */
  lemma RefusedTypeReply(mimeType: string)
    requires !FileFilter(mimeType)
    ensures UploadErrorReply(FilterFailure(mimeType).value) == Some(Error(400, OnlyImagesAndPdf))
  {
  }

  // ---------------------------------------------------------------------------
  // HTML escaping of the notification

  function EscChar(c: char): (r: string)
    ensures |r| >= 1
  {
    if c == '&' then "&amp;" else if c == '<' then "&lt;" else if c == '>' then "&gt;" else [c]
  }

  /** `esc`: '&', '<' and '>' become their entities. */
  function Esc(s: string): (r: string)
    ensures |r| >= |s|
  {
    if s == [] then [] else EscChar(s[0]) + Esc(s[1..])
  }

  /** Decoding the three entities `Esc` writes. */
  function Unescape(s: string): (r: string)
    decreases |s|
  {
    if s == [] then []
    else if StartsWith(s, "&amp;") then "&" + Unescape(s[5..])
    else if StartsWith(s, "&lt;") then "<" + Unescape(s[4..])
    else if StartsWith(s, "&gt;") then ">" + Unescape(s[4..])
    else [s[0]] + Unescape(s[1..])
  }

  lemma UnescapeAmp(rest: string)
    ensures Unescape("&amp;" + rest) == "&" + Unescape(rest)
  {
    var s := "&amp;" + rest;
    assert s[..5] == "&amp;" && s[5..] == rest;
  }

  lemma UnescapeLt(rest: string)
    ensures Unescape("&lt;" + rest) == "<" + Unescape(rest)
  {
    var s := "&lt;" + rest;
    assert s[..4] == "&lt;" && s[4..] == rest;
    assert !StartsWith(s, "&amp;") by { assert s[1] == 'l'; }
  }

  lemma UnescapeGt(rest: string)
    ensures Unescape("&gt;" + rest) == ">" + Unescape(rest)
  {
    var s := "&gt;" + rest;
    assert s[..4] == "&gt;" && s[4..] == rest;
    assert !StartsWith(s, "&amp;") by { assert s[1] == 'g'; }
    assert !StartsWith(s, "&lt;") by { assert s[1] == 'g'; }
  }

  lemma UnescapePlain(c: char, rest: string)
    requires c != '&'
    ensures Unescape([c] + rest) == [c] + Unescape(rest)
  {
    var s := [c] + rest;
    assert s[0] == c && s[1..] == rest;
  }

  lemma UnescapeEscChar(c: char, rest: string)
    ensures Unescape(EscChar(c) + rest) == [c] + Unescape(rest)
  {
    if c == '&' {
      UnescapeAmp(rest);
    } else if c == '<' {
      UnescapeLt(rest);
    } else if c == '>' {
      UnescapeGt(rest);
    } else {
      UnescapePlain(c, rest);
    }
  }

  /** Escaping loses nothing: decoding the entities gives the text back. */
  lemma {:induction false} EscRoundTrip(s: string)
    ensures Unescape(Esc(s)) == s
  {
    if s != [] {
      UnescapeEscChar(s[0], Esc(s[1..]));
      EscRoundTrip(s[1..]);
      assert s == [s[0]] + s[1..];
    }
  }

  /** The escaped text can open no tag, and text without '&', '<' or '>' is left as it is. */
  lemma {:induction false} EscIsSafe(s: string)
    ensures forall i :: 0 <= i < |Esc(s)| ==> Esc(s)[i] != '<' && Esc(s)[i] != '>'
    ensures (forall i :: 0 <= i < |s| ==> s[i] !in "&<>") ==> Esc(s) == s
  {
    if s != [] {
      EscIsSafe(s[1..]);
      var r := Esc(s);
      forall i | 0 <= i < |r|
        ensures r[i] != '<' && r[i] != '>'
      {
        if i >= |EscChar(s[0])| {
          assert r[i] == Esc(s[1..])[i - |EscChar(s[0])|];
        }
      }
      if forall i :: 0 <= i < |s| ==> s[i] !in "&<>" {
        assert forall i :: 0 <= i < |s[1..]| ==> s[1..][i] == s[i + 1];
        assert s[0] !in "&<>";
        assert s == [s[0]] + s[1..];
      }
    }
  }

  // ---------------------------------------------------------------------------
  // Placing an order

  /** A file multer stored: `stamp` is the clock reading its storage took. */
  datatype UploadedFile = UploadedFile(originalName: string, mimeType: string, size: nat, stamp: nat)

  /** What the upload middleware hands on: the stored files, or a failure
      that goes straight to the error handler. */
  datatype Upload = Accepted(files: seq<UploadedFile>) | Rejected(failure: UploadFailure)

  /** The text fields of the multipart form; "" is a missing field. The
      numeric fields arrive already read as numbers, `None` when missing or empty. */
  datatype OrderForm = OrderForm(
    serviceType: string,
    size: string,
    sizeSelect: string,
    customW: Option<int>,
    customH: Option<int>,
    finish: string,
    quantity: Option<int>,
    delivery: string,
    instructions: string,
    price: Option<int>,
    deliveryFee: Option<int>,
    total: Option<int>)

  /** JavaScript's `a || b` on strings. */
  function Or(a: string, b: string): string {
    if a != "" then a else b
  }

  function FileEntry(f: UploadedFile): (e: FileInfo)
    ensures e.path == PublicPrefix + e.filename
  {
    var name := StoredFilename(f.stamp, f.originalName);
    FileInfo(name, PublicPrefix + name, f.originalName, f.mimeType, f.size)
  }

  /** The `files` list of the new row: one entry per upload, in upload order. */
  function FileEntries(files: seq<UploadedFile>): (r: seq<FileInfo>)
    ensures |r| == |files|
  {
    seq(|files|, i requires 0 <= i < |files| => FileEntry(files[i]))
  }

  const Unpaid := Payment(Some("unpaid"), None, None, None, None, None)

  /** The new row: pending and unpaid, the form's fields with their defaults,
      and one stored-file entry per upload, in upload order. */
  function NewOrder(form: OrderForm, id: string, userId: string, files: seq<UploadedFile>, now: int): (row: Order)
    ensures row.id == id && row.userId == userId && row.createdAt == now
    ensures row.status == "pending" && row.payment == Payment(Some("unpaid"), None, None, None, None, None)
    ensures row.serviceType == (if form.serviceType == "" then "print" else form.serviceType)
    ensures row.finish == (if form.finish == "" then "vinyl" else form.finish)
    ensures row.delivery == (if form.delivery == "" then "deliver" else form.delivery)
    ensures row.quantity == (if form.quantity.None? then 1 else form.quantity.value)
    ensures row.size == (if form.size != "" then form.size else form.sizeSelect)
    ensures row.total == (if form.total.None? then 0 else form.total.value)
    ensures |row.files| == |files|
    ensures forall i :: 0 <= i < |files| ==>
              row.files[i].originalName == files[i].originalName
              && row.files[i].filename == StoredFilename(files[i].stamp, files[i].originalName)
              && row.files[i].path == PublicPrefix + row.files[i].filename
  {
    Order(
      id, userId,
      Or(form.serviceType, "print"),
      Or(form.size, Or(form.sizeSelect, "")),
      form.customW.GetOr(0), form.customH.GetOr(0),
      Or(form.finish, "vinyl"),
      form.quantity.GetOr(1),
      Or(form.delivery, "deliver"),
      form.instructions,
      form.price.GetOr(0), form.deliveryFee.GetOr(0), form.total.GetOr(0),
      FileEntries(files),
      "pending", Unpaid, now)
  }

  /** POST /api/orders: the upload middleware runs first, then the session
      check, then one INSERT; a taken id makes the INSERT fail. */
  function PlaceOrderStep(t: Tables, session: Option<SessionUser>, form: OrderForm, upload: Upload,
                          id: string, now: int): (o: Outcome<string>)
    ensures upload.Rejected? ==> o.tables == t
    ensures upload.Accepted? && session.None? ==> o == Outcome(Error(401, NotAuthenticated), t)
    ensures o.reply.Ok? <==> upload.Accepted? && session.Some? && !OrderIdTaken(t.orders, id)
    ensures o.reply.Ok? ==> o.reply.value == id
    ensures o.reply.Ok? ==> o.tables == t.(orders := t.orders + [NewOrder(form, id, session.value.id, upload.files, now)])
    ensures o.reply.Error? ==> o.tables == t
  {
    match upload
    case Rejected(f) => Outcome(UploadErrorReply(f).GetOr(Error(500, UnhandledError)), t)
    case Accepted(files) =>
      if session.None? then Outcome(Error(401, NotAuthenticated), t)
      else if OrderIdTaken(t.orders, id) then Outcome(Error(500, PlaceFailed), t)
      else
        Outcome(Ok(id), t.(orders := t.orders + [NewOrder(form, id, session.value.id, files, now)]))
  }

  /** A placed order is one new row at the end, owned by the session user,
      unpaid and pending, with the form's defaults and the files in upload order. */
  lemma PlacedOrderRow(t: Tables, session: Option<SessionUser>, form: OrderForm, files: seq<UploadedFile>,
                       id: string, now: int)
    requires PlaceOrderStep(t, session, form, Accepted(files), id, now).reply.Ok?
    ensures var o := PlaceOrderStep(t, session, form, Accepted(files), id, now);
            var row := o.tables.orders[|t.orders|];
            && o.tables == t.(orders := t.orders + [row])
            && row.id == id && row.userId == session.value.id && row.createdAt == now
            && row.status == "pending" && row.payment == Payment(Some("unpaid"), None, None, None, None, None)
            && row.serviceType == (if form.serviceType == "" then "print" else form.serviceType)
            && row.finish == (if form.finish == "" then "vinyl" else form.finish)
            && row.delivery == (if form.delivery == "" then "deliver" else form.delivery)
            && row.quantity == (if form.quantity.None? then 1 else form.quantity.value)
            && row.size == (if form.size != "" then form.size else form.sizeSelect)
            && row.total == (if form.total.None? then 0 else form.total.value)
            && |row.files| == |files|
            && forall i :: 0 <= i < |files| ==>
                 row.files[i].originalName == files[i].originalName
                 && row.files[i].filename == StoredFilename(files[i].stamp, files[i].originalName)
                 && row.files[i].path == PublicPrefix + row.files[i].filename
  {
  }

  /** The upload middleware answers before the session is looked at. */
  lemma UploadFailureFirst(t: Tables, session: Option<SessionUser>, form: OrderForm, f: UploadFailure,
                           id: string, now: int)
    ensures PlaceOrderStep(t, session, form, Rejected(f), id, now).reply ==
              if f.Other? then Error(500, UnhandledError) else UploadErrorReply(f).value
  {
  }

  /** Placing an order keeps the table's keys unique. */
  lemma PlaceOrderKeepsValid(t: Tables, session: Option<SessionUser>, form: OrderForm, upload: Upload,
                             id: string, now: int)
    requires TablesValid(t)
    ensures TablesValid(PlaceOrderStep(t, session, form, upload, id, now).tables)
  {
    var o := PlaceOrderStep(t, session, form, upload, id, now);
    if o.reply.Ok? {
      AppendOrderKeepsValid(t.orders, o.tables.orders[|t.orders|]);
    }
  }

  method PlaceOrder(db: Db, session: Option<SessionUser>, form: OrderForm, upload: Upload, id: string, now: int)
    returns (r: Reply<string>)
    requires db.Valid()
    modifies db
    ensures Outcome(r, db.Contents()) == PlaceOrderStep(old(db.Contents()), session, form, upload, id, now)
    ensures db.Valid()
  {
    if upload.Rejected? {
      var answer := UploadErrorReply(upload.failure);
      return if answer.Some? then answer.value else Error(500, UnhandledError);
    }
    if session.None? { return Error(401, NotAuthenticated); }
    var row := NewOrder(form, id, session.value.id, upload.files, now);
    if OrderIdTaken(db.orders, id) { return Error(500, PlaceFailed); }
    AppendOrderKeepsValid(db.orders, row);
    db.orders := db.orders + [row];
    r := Ok(id);
  }

  // ---------------------------------------------------------------------------
  // GET /api/orders/my

  function OwnedBy(userId: string): Order -> bool {
    (o: Order) => o.userId == userId
  }

  /** `SELECT * FROM orders WHERE user_id = ? ORDER BY created_at DESC`. */
  function MyOrders(t: Tables, session: Option<SessionUser>): (r: Reply<seq<Order>>)
    ensures r.Error? <==> session.None?
    ensures r.Error? ==> r == Error(401, NotAuthenticated)
  {
    if session.None? then Error(401, NotAuthenticated)
    else Ok(SortBy(CreatedDesc, Select(t.orders, OwnedBy(session.value.id)), (o: Order) => o))
  }

  /** Every listed order belongs to the session user, and each of the
      user's orders is listed once per row. */
  lemma MyOrdersAreMine(t: Tables, user: SessionUser)
    ensures forall o :: o in MyOrders(t, Some(user)).value ==> o.userId == user.id
    ensures forall o: Order :: o.userId == user.id ==>
              multiset(MyOrders(t, Some(user)).value)[o] == multiset(t.orders)[o]
  {
    var mine := Select(t.orders, OwnedBy(user.id));
    SelectKeepsMatches(t.orders, OwnedBy(user.id));
    forall o | o in SortBy(CreatedDesc, mine, (o: Order) => o)
      ensures o.userId == user.id
    {
      assert o in multiset(mine);
      assert OwnedBy(user.id)(o);
    }
  }

  /** The list is newest first. */
  lemma MyOrdersNewestFirst(t: Tables, user: SessionUser)
    ensures var r := MyOrders(t, Some(user)).value;
            forall i, j :: 0 <= i < j < |r| ==> r[i].createdAt >= r[j].createdAt
  {
    var r := SortBy(CreatedDesc, Select(t.orders, OwnedBy(user.id)), (o: Order) => o);
    SortBySorted(CreatedDesc, Select(t.orders, OwnedBy(user.id)), (o: Order) => o);
    forall i, j | 0 <= i < j < |r|
      ensures r[i].createdAt >= r[j].createdAt
    {
      assert InOrder(CreatedDesc, r[i], r[j]);
    }
  }
}
