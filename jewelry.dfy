/** The jewelry inventory routes: creating, reading, updating and deleting items,
    with the decisions around each item's image file. The database table is a map
    from id to row with its autoincrement counter; the upload is given as the stored
    file's path and the client's mimetype; deleting a file is reported, not done. */
module Jewelry {
  import opened Wrappers
  import opened Text

  /** A stored row. `name` and `weight` are NOT NULL columns; every other column
      may hold NULL (`None`). */
  datatype JewelryRow = JewelryRow(
    name: string,
    imagePath: Option<string>,
    weight: real,
    weightUnit: Option<string>,
    workingCost: Option<real>,
    metalType: Option<string>,
    purity: Option<int>)

  /** The text fields of a multipart request body; `None` when a field is absent. */
  datatype Form = Form(
    name: Option<string>,
    weight: Option<string>,
    weightUnit: Option<string>,
    workingCost: Option<string>,
    metalType: Option<string>,
    purity: Option<string>)

  /** The file `multer` stored for the `image` field. */
  datatype Upload = Upload(path: string, mimetype: string)

  /** The table: its rows by id, and the id the next insert receives. */
  datatype Store = Store(rows: map<nat, JewelryRow>, nextId: nat)

  datatype JewelryReply = Added(id: nat) | Updated | Deleted | Failed(status: int, error: string)

  /** A handler's effect: the new table, the reply, and the image file it deletes. */
  datatype Effect = Effect(store: Store, reply: JewelryReply, unlinked: Option<string>)

  /** JavaScript truthiness of a string that may be `null` or `undefined`. */
  predicate Present(s: Option<string>) {
    s.Some? && |s.value| > 0
  }

  /** Ids start at 1, and every row's id was handed out by the counter. */
  predicate WellFormed(s: Store) {
    s.nextId > 0 && forall id :: id in s.rows ==> 0 < id < s.nextId
  }

  // -------------------------------------------------------------- image paths

  /** The local upload filter: only mimetypes beginning with "image/" are accepted. */
  predicate AcceptsUpload(mimetype: string) {
    StartsWith(mimetype, "image/")
  }

  /** The filter runs only for local storage; a refused upload fails the request
      through the error handler (500) before the route runs. */
  predicate UploadRefused(cloud: bool, file: Option<Upload>) {
    !cloud && file.Some? && !AcceptsUpload(file.value.mimetype)
  }

  function DropTrailingSlashes(p: string): (r: string)
    ensures |r| <= |p| && r == p[..|r|]
    ensures |r| == 0 || r[|r| - 1] != '/'
    decreases |p|
  {
    if |p| > 0 && p[|p| - 1] == '/' then DropTrailingSlashes(p[..|p| - 1]) else p
  }

  /** What follows the last '/' (all of `p` when it has none). */
  function AfterLastSlash(p: string): (r: string)
    ensures '/' !in r
    ensures |r| <= |p| && r == p[|p| - |r|..]
    decreases |p|
  {
    if |p| == 0 then []
    else if p[|p| - 1] == '/' then []
    else AfterLastSlash(p[..|p| - 1]) + [p[|p| - 1]]
  }

  /** POSIX `path.basename`: trailing slashes are ignored, then the last component. */
  function Basename(p: string): (r: string)
    ensures '/' !in r
  {
    AfterLastSlash(DropTrailingSlashes(p))
  }

  lemma {:induction false} AfterLastSlashOf(dir: string, name: string)
    requires '/' !in name
    ensures AfterLastSlash(dir + ['/'] + name) == name
    decreases |name|
  {
    var p := dir + ['/'] + name;
    if |name| == 0 {
      assert p[|p| - 1] == '/';
    } else {
      var n := |name| - 1;
      assert p[..|p| - 1] == dir + ['/'] + name[..n];
      assert name[..n] + [name[n]] == name;
      AfterLastSlashOf(dir, name[..n]);
    }
  }

  /** The base name of a file stored under any directory is the file's own name. */
  lemma BasenameOfStoredFile(dir: string, name: string)
    requires |name| > 0 && '/' !in name
    ensures Basename(dir + "/" + name) == name
  {
    var p := dir + "/" + name;
    assert p[|p| - 1] == name[|name| - 1];
    assert DropTrailingSlashes(p) == p;
    AfterLastSlashOf(dir, name);
  }

  /** The `image_url` of a row: `null` without an image path; the path itself for
      cloud storage (a Cloudinary URL); else "/uploads/" and the file's base name. */
  function ImageUrl(cloud: bool, imagePath: Option<string>): Option<string> {
    if !Present(imagePath) then None
    else if cloud then imagePath
    else Some("/uploads/" + Basename(imagePath.value))
  }

  /** A row has an image URL exactly when it has an image path; a local URL always
      lies directly under /uploads/, a cloud URL is the stored path. */
  lemma ImageUrlIff(cloud: bool, imagePath: Option<string>)
    ensures ImageUrl(cloud, imagePath).Some? <==> Present(imagePath)
    ensures Present(imagePath) && cloud ==> ImageUrl(cloud, imagePath) == imagePath
    ensures Present(imagePath) && !cloud ==>
      var u := ImageUrl(cloud, imagePath).value;
      StartsWith(u, "/uploads/") && '/' !in u[9..]
  {
    if Present(imagePath) && !cloud {
      var u := ImageUrl(cloud, imagePath).value;
      assert u[9..] == Basename(imagePath.value);
    }
  }

  /** `GET /jewelry/:id`: the row with its image URL, or 404. */
  function GetItem(s: Store, cloud: bool, id: nat): Result
  {
    if id in s.rows then Found(s.rows[id], ImageUrl(cloud, s.rows[id].imagePath))
    else NotFound
  }

  datatype Result = Found(row: JewelryRow, imageUrl: Option<string>) | NotFound

  // ---------------------------------------------------------------------- POST

  /** The row `POST /jewelry` inserts, with the body's defaults applied to absent
      fields only (unit "tola", working cost 0, metal "silver", purity 24); `None`
      when `parseFloat(weight)` is `NaN`, which the NOT NULL weight column refuses. */
  function NewRow(form: Form, imagePath: Option<string>): Option<JewelryRow>
    requires Present(form.name) && Present(form.weight)
  {
    match ParseFloat(form.weight.value)
    case None => None
    case Some(w) =>
      Some(JewelryRow(
        form.name.value,
        imagePath,
        w,
        Some(form.weightUnit.GetOr("tola")),
        if form.workingCost.None? then Some(0.0) else ParseFloat(form.workingCost.value),
        Some(form.metalType.GetOr("silver")),
        if form.purity.None? then Some(24) else ParseInt(form.purity.value)))
  }

  /** `POST /jewelry`. */
  function Post(s: Store, cloud: bool, form: Form, file: Option<Upload>): Effect {
    if UploadRefused(cloud, file) then Effect(s, Failed(500, "Only image files are allowed!"), None)
    else if !Present(form.name) || !Present(form.weight) then Effect(s, Failed(400, "Name and weight are required"), None)
    else
      var imagePath := if file.Some? then Some(file.value.path) else None;
      match NewRow(form, imagePath)
      case None => Effect(s, Failed(500, "Failed to add jewelry item"), None)
      case Some(r) => Effect(Store(s.rows[s.nextId := r], s.nextId + 1), Added(s.nextId), None)
  }

  /** Without a name or a weight nothing is inserted and the reply is 400; an
      insert adds exactly one row, under a fresh id, and changes no other row. */
  lemma PostCases(s: Store, cloud: bool, form: Form, file: Option<Upload>)
    requires WellFormed(s)
    ensures var e := Post(s, cloud, form, file);
      WellFormed(e.store) && e.unlinked == None &&
      (!UploadRefused(cloud, file) && (!Present(form.name) || !Present(form.weight)) ==>
         e == Effect(s, Failed(400, "Name and weight are required"), None)) &&
      (e.reply.Added? <==> !UploadRefused(cloud, file) && Present(form.name) && Present(form.weight)
                           && ParseFloat(form.weight.value).Some?) &&
      (e.reply.Added? ==> e.reply.id == s.nextId && s.nextId !in s.rows &&
                          e.store.rows.Keys == s.rows.Keys + {s.nextId} &&
                          (forall id :: id in s.rows ==> e.store.rows[id] == s.rows[id])) &&
      (!e.reply.Added? ==> e.store == s)
  {
  }

  /** The defaults: a body holding only a name and a weight stores unit "tola",
      working cost 0, metal "silver" and purity 24, and the weight as parsed. */
  lemma PostDefaults(name: string, weight: string, imagePath: Option<string>)
    requires |name| > 0 && |weight| > 0 && ParseFloat(weight).Some?
    ensures NewRow(Form(Some(name), Some(weight), None, None, None, None), imagePath) ==
      Some(JewelryRow(name, imagePath, ParseFloat(weight).value, Some("tola"), Some(0.0), Some("silver"), Some(24)))
  {
  }

  // ----------------------------------------------------------------------- PUT

  /** The old local file is deleted only when a new file was uploaded, the row had
      an image path, the two differ, and storage is local. */
  predicate ShouldUnlink(cloud: bool, newPath: Option<string>, oldPath: Option<string>) {
    Present(newPath) && Present(oldPath) && oldPath.value != newPath.value && !cloud
  }

  /** The row `UPDATE` writes: every column from the body, with no defaults; `None`
      when the NOT NULL name or weight would be NULL. */
  function UpdatedRow(form: Form, imagePath: Option<string>): Option<JewelryRow> {
    if form.name.None? || form.weight.None? then None
    else match ParseFloat(form.weight.value)
      case None => None
      case Some(w) =>
        Some(JewelryRow(
          form.name.value,
          imagePath,
          w,
          form.weightUnit,
          if form.workingCost.None? then None else ParseFloat(form.workingCost.value),
          form.metalType,
          if form.purity.None? then None else ParseInt(form.purity.value)))
  }

  /** `PUT /jewelry/:id` as written: the old image is deleted BEFORE the update runs,
      so an update that fails still deletes it. */
  function PutAsWritten(s: Store, cloud: bool, id: nat, form: Form, file: Option<Upload>): Effect {
    if UploadRefused(cloud, file) then Effect(s, Failed(500, "Only image files are allowed!"), None)
    else if id !in s.rows then Effect(s, Failed(404, "Jewelry item not found"), None)
    else
      var row := s.rows[id];
      var newPath := if file.Some? then Some(file.value.path) else None;
      var unlinked := if ShouldUnlink(cloud, newPath, row.imagePath) then row.imagePath else None;
      var imagePath := if Present(newPath) then newPath else row.imagePath;
      match UpdatedRow(form, imagePath)
      case None => Effect(s, Failed(500, "Failed to update jewelry item"), unlinked)
      case Some(r) => Effect(s.(rows := s.rows[id := r]), Updated, unlinked)
  }

  /** `PUT /jewelry/:id` with the old image deleted only once the update has
      succeeded; the model's store uses this one. */
  function Put(s: Store, cloud: bool, id: nat, form: Form, file: Option<Upload>): Effect {
    var e := PutAsWritten(s, cloud, id, form, file);
    if e.reply.Updated? then e else e.(unlinked := None)
  }

  /** As written, a failed update can leave the row pointing at the file it just
      deleted: the row keeps "/u/a.jpg" while "/u/a.jpg" is unlinked. */
  lemma PutAsWrittenDeletesLiveImage()
    ensures var s := Store(map[1 := JewelryRow("ring", Some("/u/a.jpg"), 1.0, None, None, None, None)], 2);
      var e := PutAsWritten(s, false, 1, Form(None, Some("2"), None, None, None, None), Some(Upload("/u/b.jpg", "image/png")));
      e.reply == Failed(500, "Failed to update jewelry item") &&
      e.unlinked == Some("/u/a.jpg") && e.store.rows[1].imagePath == Some("/u/a.jpg")
  {
    var newPath: Option<string> := Some("/u/b.jpg");
    var oldPath: Option<string> := Some("/u/a.jpg");
    assert newPath.value[3] == 'b' && oldPath.value[3] == 'a';
    assert ShouldUnlink(false, newPath, oldPath);
  }

  /** A deleted image is never still referenced by the row: a delete happens only
      with a successful update that gave the row the new, different path. */
  lemma PutNeverDeletesLiveImage(s: Store, cloud: bool, id: nat, form: Form, file: Option<Upload>)
    ensures var e := Put(s, cloud, id, form, file);
      e.unlinked.Some? ==> e.reply == Updated && id in s.rows && s.rows[id].imagePath == e.unlinked &&
                           e.store.rows[id].imagePath != e.unlinked
  {
  }

  /** A missing id is a 404 that changes nothing; otherwise only row `id` may change,
      a request without a new upload keeps the old image path, and the old file is
      deleted exactly when the update succeeds and the unlink condition holds. */
  lemma PutCases(s: Store, cloud: bool, id: nat, form: Form, file: Option<Upload>)
    requires WellFormed(s)
    ensures var e := Put(s, cloud, id, form, file);
      WellFormed(e.store) && e.store.nextId == s.nextId &&
      (!UploadRefused(cloud, file) && id !in s.rows ==> e == Effect(s, Failed(404, "Jewelry item not found"), None)) &&
      (e.reply.Updated? ==>
         (id in s.rows && e.store.rows.Keys == s.rows.Keys &&
          (forall k :: k in s.rows && k != id ==> e.store.rows[k] == s.rows[k]) &&
          (file.None? ==> e.store.rows[id].imagePath == s.rows[id].imagePath) &&
          (e.unlinked.Some? <==> file.Some? && ShouldUnlink(cloud, Some(file.value.path), s.rows[id].imagePath)))) &&
      (!e.reply.Updated? ==> e.store == s && e.unlinked == None)
  {
  }

  // -------------------------------------------------------------------- DELETE

  /** `DELETE /jewelry/:id`: 404 for a missing id; otherwise the row goes, and its
      image file too when it has a path and storage is local. */
  function Delete(s: Store, cloud: bool, id: nat): Effect {
    if id !in s.rows then Effect(s, Failed(404, "Jewelry item not found"), None)
    else
      var p := s.rows[id].imagePath;
      Effect(s.(rows := s.rows - {id}), Deleted, if Present(p) && !cloud then p else None)
  }

  /** A delete removes exactly that id and keeps every other row. */
  lemma DeleteCases(s: Store, cloud: bool, id: nat)
    requires WellFormed(s)
    ensures var e := Delete(s, cloud, id);
      WellFormed(e.store) &&
      (id !in s.rows ==> e == Effect(s, Failed(404, "Jewelry item not found"), None)) &&
      (id in s.rows ==>
         (e.reply == Deleted && e.store.rows.Keys == s.rows.Keys - {id} &&
          (forall k :: k in e.store.rows ==> e.store.rows[k] == s.rows[k]) &&
          (e.unlinked.Some? <==> Present(s.rows[id].imagePath) && !cloud) &&
          (e.unlinked.Some? ==> e.unlinked == s.rows[id].imagePath)))
  {
  }

  /** A deleted item reads back as not found. */
  lemma DeleteThenGet(s: Store, cloud: bool, id: nat)
    ensures GetItem(Delete(s, cloud, id).store, cloud, id) == NotFound
  {
  }

  // ------------------------------------------------------------------ the table

  /** The jewelry table of one server process, and whether it stores images in the cloud. */
  class JewelryTable {
    const cloud: bool
    var rows: map<nat, JewelryRow>
    var nextId: nat

    /** The autoincrement counter is ahead of every id in the table. */
    predicate Valid()
      reads this
    {
      WellFormed(Store(rows, nextId))
    }

    constructor(cloud: bool)
      ensures Valid()
      ensures this.cloud == cloud && rows == map[] && nextId == 1
    {
      this.cloud := cloud;
      rows, nextId := map[], 1;
    }

    method Add(form: Form, file: Option<Upload>) returns (reply: JewelryReply)
      requires Valid()
      modifies this
      ensures Valid()
      ensures var e := Post(old(Store(rows, nextId)), cloud, form, file);
        Store(rows, nextId) == e.store && reply == e.reply
    {
      PostCases(old(Store(rows, nextId)), cloud, form, file);
      if UploadRefused(cloud, file) {
        return Failed(500, "Only image files are allowed!");
      }
      if !Present(form.name) || !Present(form.weight) {
        return Failed(400, "Name and weight are required");
      }
      var imagePath := if file.Some? then Some(file.value.path) else None;
      var row := NewRow(form, imagePath);
      if row.None? {
        return Failed(500, "Failed to add jewelry item");
      }
      rows := rows[nextId := row.value];
      reply := Added(nextId);
      nextId := nextId + 1;
    }

    method Update(id: nat, form: Form, file: Option<Upload>) returns (reply: JewelryReply, unlinked: Option<string>)
      requires Valid()
      modifies this
      ensures Valid()
      ensures var e := Put(old(Store(rows, nextId)), cloud, id, form, file);
        Store(rows, nextId) == e.store && reply == e.reply && unlinked == e.unlinked
    {
      PutCases(old(Store(rows, nextId)), cloud, id, form, file);
      if UploadRefused(cloud, file) {
        return Failed(500, "Only image files are allowed!"), None;
      }
      if id !in rows {
        return Failed(404, "Jewelry item not found"), None;
      }
      var current := rows[id];
      var newPath := if file.Some? then Some(file.value.path) else None;
      var imagePath := if Present(newPath) then newPath else current.imagePath;
      var row := UpdatedRow(form, imagePath);
      if row.None? {
        return Failed(500, "Failed to update jewelry item"), None;
      }
      rows := rows[id := row.value];
      unlinked := if ShouldUnlink(cloud, newPath, current.imagePath) then current.imagePath else None;
      reply := Updated;
    }

    method Remove(id: nat) returns (reply: JewelryReply, unlinked: Option<string>)
      requires Valid()
      modifies this
      ensures Valid()
      ensures var e := Delete(old(Store(rows, nextId)), cloud, id);
        Store(rows, nextId) == e.store && reply == e.reply && unlinked == e.unlinked
    {
      DeleteCases(old(Store(rows, nextId)), cloud, id);
      if id !in rows {
        return Failed(404, "Jewelry item not found"), None;
      }
      var p := rows[id].imagePath;
      unlinked := if Present(p) && !cloud then p else None;
      rows := rows - {id};
      reply := Deleted;
    }
  }
}
