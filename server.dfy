/** The pure parts of the labeler's web service: the upload file-name
    check and the parameter checks the /train and /column endpoints make
    before they call the labeler. */
module Server {
  import opened Common

  // ---------------------------------------------------------------------
  // allowed_file

  /** The position of the last '.' in s, if any. */
  function LastDot(s: string): (r: Option<nat>)
    ensures r.Some? ==> r.value < |s| && s[r.value] == '.' && forall j | r.value < j < |s| :: s[j] != '.'
    ensures r.None? ==> forall j | 0 <= j < |s| :: s[j] != '.'
  {
    if s == [] then None
    else if s[|s| - 1] == '.' then Some(|s| - 1)
    else LastDot(s[..|s| - 1])
  }

  /** filename.rsplit('.', 1)[1] when filename holds a '.': the text after
      its last dot. */
  function Extension(filename: string): (r: Option<string>)
    ensures r.None? <==> '.' !in filename
    ensures r.Some? ==> '.' !in r.value && |r.value| < |filename|
    ensures r.Some? ==> filename == filename[..|filename| - |r.value| - 1] + "." + r.value
  {
    match LastDot(filename)
    case None => None
    case Some(i) =>
      assert filename == filename[..i] + "." + filename[i + 1..];
      Some(filename[i + 1..])
  }

  /** allowed_file: the file name has a dot and the text after its last
      dot is one of the extensions. */
  predicate AllowedFile(filename: string, extensions: seq<string>) {
    '.' in filename && Extension(filename).value in extensions
  }

  /** Whatever precedes the last dot, the extension is what follows it. */
  lemma {:induction false} ExtensionOf(base: string, ext: string)
    requires '.' !in ext
    ensures Extension(base + "." + ext) == Some(ext)
  {
    var f := base + "." + ext;
    assert f[|base|] == '.';
    assert forall j | |base| < j < |f| :: f[j] == ext[j - |base| - 1];
    var r := LastDot(f);
    assert r.value == |base|;
    assert f[|base| + 1..] == ext;
  }

  /** A file is allowed exactly when it is some base name, a dot and an
      allowed extension without dots. */
  lemma AllowedFileMeaning(filename: string, extensions: seq<string>)
    ensures AllowedFile(filename, extensions) <==>
      exists i | 0 <= i < |filename| :: filename[i] == '.' && '.' !in filename[i + 1..] && filename[i + 1..] in extensions
  {
    if AllowedFile(filename, extensions) {
      var ext := Extension(filename).value;
      var i := |filename| - |ext| - 1;
      assert filename[i] == '.' && filename[i + 1..] == ext;
    }
    if exists i | 0 <= i < |filename| :: filename[i] == '.' && '.' !in filename[i + 1..] && filename[i + 1..] in extensions {
      var i :| 0 <= i < |filename| && filename[i] == '.' && '.' !in filename[i + 1..] && filename[i + 1..] in extensions;
      assert filename == filename[..i] + "." + filename[i + 1..];
      ExtensionOf(filename[..i], filename[i + 1..]);
    }
  }

  /** Only the last extension counts: "a.tar.gz" has extension "gz", so it
      is allowed by "gz" and not by "tar.gz". */
  lemma LastExtensionOnly()
    ensures AllowedFile("a.tar.gz", ["gz"])
    ensures !AllowedFile("a.tar.gz", ["tar.gz"])
  {
    ExtensionOf("a.tar", "gz");
    assert "a.tar.gz" == "a.tar" + "." + "gz";
    assert "gz" != "tar.gz";
  }

  /** A name ending in a dot has the empty extension. */
  lemma TrailingDot(base: string)
    ensures Extension(base + ".") == Some("")
  {
    ExtensionOf(base, "");
    assert base + "." + "" == base + ".";
  }

  // ---------------------------------------------------------------------
  // Request bodies

  /** A JSON value as Flask decodes it. */
  datatype Json =
    | JNull
    | JBool(b: bool)
    | JNumber(n: real)
    | JString(str: string)
    | JList(items: seq<Json>)
    | JObject(members: map<string, Json>)

  /** request.json: the decoded object, or None when the body is not JSON. */
  type Request = Option<map<string, Json>>

  const JsonMissing := "JSON missing"
  const TrainMissing := "missing parameter: 'folder' or/and 'size' not in request"
  const FolderNotList := "wrong parameter: 'folder' not list"
  const SizeNotList := "wrong parameter: 'size' not list"
  const ColumnMissing := "Either header, or source, or values not in request."

  /** What /train does with a request: answer 414 with a message, or train
      on the folders and sizes given. */
  datatype TrainCheck = TrainRejected(message: string) | TrainOn(folders: seq<Json>, sizes: seq<Json>)

  /** The checks of train_logistic_regression, in the order it makes them. */
  function CheckTrain(req: Request): (r: TrainCheck)
    ensures r.TrainOn? <==>
      && req.Some? && "folder" in req.value && "size" in req.value
      && req.value["folder"].JList? && req.value["size"].JList?
    ensures r.TrainOn? ==> r.folders == req.value["folder"].items && r.sizes == req.value["size"].items
    ensures r == TrainRejected(JsonMissing) <==> req.None?
    ensures r == TrainRejected(TrainMissing) <==> req.Some? && ("folder" !in req.value || "size" !in req.value)
    ensures r == TrainRejected(FolderNotList) <==>
      req.Some? && "folder" in req.value && "size" in req.value && !req.value["folder"].JList?
    ensures r == TrainRejected(SizeNotList) <==>
      && req.Some? && "folder" in req.value && "size" in req.value
      && req.value["folder"].JList? && !req.value["size"].JList?
  {
    if req.None? then TrainRejected(JsonMissing)
    else if "folder" !in req.value || "size" !in req.value then TrainRejected(TrainMissing)
    else if !req.value["folder"].JList? then TrainRejected(FolderNotList)
    else if !req.value["size"].JList? then TrainRejected(SizeNotList)
    else TrainOn(req.value["folder"].items, req.value["size"].items)
  }

  /** What /column POST does with a request: raise (testing a key of a
      body that is not JSON), answer 414, or build the column from header,
      values and source. source is JNull when absent, as Python's None. */
  datatype ColumnCheck = ColumnRaises | ColumnRejected(message: string)
                       | BuildColumn(header: Json, values: Json, source: Json)

  /** The checks of get_semantic_type before the column is built. */
  function CheckColumn(req: Request): (r: ColumnCheck)
    ensures r == ColumnRaises <==> req.None?
    ensures r == ColumnRejected(ColumnMissing) <==> req.Some? && ("header" !in req.value || "values" !in req.value)
    ensures r.BuildColumn? <==> req.Some? && "header" in req.value && "values" in req.value
    ensures r.BuildColumn? ==>
      && r.header == req.value["header"] && r.values == req.value["values"]
      && r.source == (if "source" in req.value then req.value["source"] else JNull)
  {
    if req.None? then ColumnRaises
    else if "header" !in req.value || "values" !in req.value then ColumnRejected(ColumnMissing)
    else
      var source := if "source" in req.value then req.value["source"] else JNull;
      BuildColumn(req.value["header"], req.value["values"], source)
  }

  /** A source that is absent and one that is null build the same column. */
  lemma AbsentSourceIsNull(req: map<string, Json>)
    requires "header" in req && "values" in req
    ensures CheckColumn(Some(req - {"source"})) == CheckColumn(Some(req["source" := JNull]))
  {
    var absent, nulled := req - {"source"}, req["source" := JNull];
    assert "header" in absent && "values" in absent && "source" !in absent;
    assert absent["header"] == nulled["header"] && absent["values"] == nulled["values"];
  }

  /** Keys other than folder and size do not change what /train does. */
  lemma TrainIgnoresOtherKeys(req: map<string, Json>, k: string, v: Json)
    requires k != "folder" && k != "size"
    ensures CheckTrain(Some(req[k := v])) == CheckTrain(Some(req))
  {
    var more := req[k := v];
    assert ("folder" in more <==> "folder" in req) && ("size" in more <==> "size" in req);
    if "folder" in req {
      assert more["folder"] == req["folder"];
    }
    if "size" in req {
      assert more["size"] == req["size"];
    }
  }
}
