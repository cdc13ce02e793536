/**
  `create_chart` end to end: build the figure, bind the image path, write
  the image, upload it and read the answer, re-raise every failure as a 500,
  and in `finally` remove the image if it exists.
 */
module Chart {
  import opened Wrappers
  import opened Scores
  import opened Upload

  /** The local file system as far as the routine touches it: the set of existing paths. */
  class Disk {
    var files: set<string>

    constructor (existing: set<string>)
      ensures files == existing
    {
      files := existing;
    }

    /** `fig.write_image(path)`: creates the file, or overwrites one of the same name. */
    method Write(path: string)
      modifies this
      ensures files == old(files) + {path}
    {
      files := files + {path};
    }

    /** `os.path.exists(path)` */
    method Exists(path: string) returns (b: bool)
      ensures b <==> path in files
    {
      b := path in files;
    }

    /** `os.remove(path)`, which needs the file to exist. */
    method Remove(path: string)
      requires path in files
      modifies this
      ensures files == old(files) - {path}
    {
      files := files - {path};
    }
  }

  /**
    What the routine takes from outside: PATH_TO_IMAGES, `int(time.time())`,
    whether plotly builds the figure and writes the image without raising,
    and the answer of `requests.post` (None when the call raised).
   */
  datatype Outside = Outside(
    imagesDir: Option<string>,
    now: nat,
    plotOk: bool,
    writeOk: bool,
    response: Option<Response>,
    codecs: Codecs)

  /** The failure behind a 500, by the step that raised it. */
  datatype Cause =
    | BadScores            // a DataFrame column is not six long
    | PlotFailed           // px.line_polar or the layout update raised
    | WriteFailed          // fig.write_image raised
    | PostFailed           // requests.post raised
    | Rejected(e: UploadError)

  /** An `HTTPException`: its status code and the failure it reports. */
  datatype HttpError = HttpError(status: int, cause: Cause)

  /** Whether the routine gets as far as binding `img_path`. */
  predicate PathBound(lst: seq<int>, w: Outside) {
    |lst| == 12 && w.plotOk
  }

  /** The value `create_chart` returns, or the exception it raises. */
  function ChartOutcome(lst: seq<int>, w: Outside): (res: Result<Json, HttpError>)
    ensures res.Failure? ==> res.error.status == 500
    ensures res.Success? <==>
      PathBound(lst, w) && w.writeOk && w.response.Some? && Interpret(w.response.value, w.codecs).Success?
    ensures res.Success? ==> res.value == Interpret(w.response.value, w.codecs).value
  {
    if Table(lst).None? then Failure(HttpError(500, BadScores))
    else if !w.plotOk then Failure(HttpError(500, PlotFailed))
    else if !w.writeOk then Failure(HttpError(500, WriteFailed))
    else
      match w.response
      case None => Failure(HttpError(500, PostFailed))
      case Some(r) =>
        match Interpret(r, w.codecs)
        case Success(url) => Success(url)
        case Failure(e) => Failure(HttpError(500, Rejected(e)))
  }

  /**
    Whatever the image host answers, a status other than 200 makes the whole
    routine fail with a 500 that carries that status.
   */
  lemma NonOkUploadIs500(lst: seq<int>, w: Outside)
    requires PathBound(lst, w) && w.writeOk && w.response.Some?
    requires w.response.value.status != 200
    ensures ChartOutcome(lst, w) == Failure(HttpError(500, Rejected(BadStatus(w.response.value.status))))
  {
  }

  /**
    A host that rejects the upload in JSON but labels the answer as JSON
    still ends in a 500 (the rejection is caught and the fallback refuses a
    JSON content type).
   */
  lemma RejectedJsonUploadIs500(lst: seq<int>, w: Outside, doc: Json)
    requires PathBound(lst, w) && w.writeOk && w.response.Some?
    requires var r := w.response.value;
      r.status == 200 &&
      w.codecs.parseJson(Decode(r, w.codecs).content) == Some(doc) &&
      doc.JObj? && "success" in doc.fields && !Truthy(doc.fields["success"]) &&
      Text.Contains(HeaderOr(r, ContentType, ""), "application/json")
    ensures ChartOutcome(lst, w) == Failure(HttpError(500, Rejected(JsonContentTypeUnusable)))
  {
  }

  /**
    Lines 103-276: the routine with its file effects. The image exists from
    the write until `finally`, which removes it on every path on which the
    path was bound; before that point there is nothing to remove and the
    NameError of the unbound path is swallowed by the cleanup's own handler.
   */
  method CreateChart(disk: Disk, lst: seq<int>, w: Outside) returns (res: Result<Json, HttpError>)
    modifies disk
    ensures res == ChartOutcome(lst, w)
    ensures PathBound(lst, w) ==> ImagePath(w.imagesDir, w.now) !in disk.files
    ensures disk.files ==
      if PathBound(lst, w) then old(disk.files) - {ImagePath(w.imagesDir, w.now)} else old(disk.files)
  {
    // lines 106-120: the DataFrame; the rest of the figure (BuildFigure) cannot fail
    var table := Table(lst);
    var bound := false;
    var path := "";
    var outcome: Result<Json, Cause>;
    if table.None? {
      outcome := Failure(BadScores);
    } else if !w.plotOk {
      outcome := Failure(PlotFailed);
    } else {
      path := ImagePath(w.imagesDir, w.now);
      bound := true;
      if !w.writeOk {
        outcome := Failure(WriteFailed);
      } else {
        disk.Write(path);
        if w.response.None? {
          outcome := Failure(PostFailed);
        } else {
          var answer := InterpretResponse(w.response.value, w.codecs);
          outcome := match answer
            case Success(url) => Success(url)
            case Failure(e) => Failure(Rejected(e));
          assert answer == Interpret(w.response.value, w.codecs);
        }
      }
    }
    // `except Exception`: every failure leaves as a 500
    res := match outcome
      case Success(url) => Success(url)
      case Failure(cause) => Failure(HttpError(500, cause));
    // `finally`
    if bound {
      var present := disk.Exists(path);
      if present {
        disk.Remove(path);
      }
    }
  }
}
