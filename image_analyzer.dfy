/** components/ImageAnalyzer.tsx: the image screen's state, its file-choice
    and analyze handlers, and the data-URL payload extraction. */
module ImageAnalyzer {
  import opened Wrappers
  import opened JsString
  import opened GeminiService

  const UploadAndPrompt: string := "Please upload an image and provide a prompt."
  const UnknownError: string := "An unknown error occurred."

  /** A chosen file: its MIME type (`file.type`) and the data URL that
      `FileReader.readAsDataURL` produces for it. */
  datatype ImageFile = ImageFile(mimeType: string, dataUrl: string)

  /** `dataUrl.split(',')[1]`: the second comma-separated piece, or
      `undefined` when there is no second piece. */
  function DataUrlPayload(dataUrl: string): Option<string> {
    var pieces := Split(dataUrl, ',');
    if |pieces| > 1 then Some(pieces[1]) else None
  }

  /** `url[i]` is the first comma of `url`, and `p == url[i + 1..j]` runs
      from there to the next comma or the end. */
  ghost predicate SecondSegment(url: string, i: nat, j: nat, p: string) {
    i < j <= |url| && url[i] == ',' && ',' !in url[..i]
    && p == url[i + 1..j] && ',' !in p
    && (j == |url| || url[j] == ',')
  }

  /** The payload is `undefined` exactly when the URL has no comma, and
      otherwise it is the text from just after the first comma up to the
      second comma or, when there is none, the end of the URL. */
  lemma DataUrlPayloadIsSecondSegment(dataUrl: string)
    ensures DataUrlPayload(dataUrl).None? <==> ',' !in dataUrl
    ensures DataUrlPayload(dataUrl).Some? ==>
      exists i: nat, j: nat :: SecondSegment(dataUrl, i, j, DataUrlPayload(dataUrl).value)
  {
    var pieces := Split(dataUrl, ',');
    if |pieces| == 1 {
      assert dataUrl == pieces[0];
    } else {
      var i: nat := |pieces[0]|;
      var p := pieces[1];
      var j: nat := i + 1 + |p|;
      var rest := Join(pieces[1..], [',']);
      assert dataUrl == pieces[0] + [','] + rest;
      assert dataUrl[..i] == pieces[0];
      if |pieces| == 2 {
        assert rest == p;
        assert j == |dataUrl|;
      } else {
        assert pieces[1..][1..] == pieces[2..];
        assert rest == p + [','] + Join(pieces[2..], [',']);
        assert dataUrl[j] == ',';
      }
      assert dataUrl[i + 1..j] == p;
      assert dataUrl[i] == ',';
      assert ',' !in p;
      assert SecondSegment(dataUrl, i, j, DataUrlPayload(dataUrl).value);
    }
  }

  /** `fileToGenerativePart`: an inline-data part with the file's payload
      and MIME type. */
  function FileToGenerativePart(file: ImageFile): (part: Part)
    ensures part.InlineData? && part.mimeType == file.mimeType
    ensures part.data == DataUrlPayload(file.dataUrl)
  {
    InlineData(DataUrlPayload(file.dataUrl), file.mimeType)
  }

  class State {
    var imageFile: Option<ImageFile>
    var prompt: string
    var result: Option<string>
    var isLoading: bool
    var error: Option<string>
    /** The requests this screen has handed to the service, oldest first. */
    ghost var sent: seq<Request>

    constructor ()
      ensures imageFile == None && prompt == "" && result == None && !isLoading && error == None && sent == []
    {
      imageFile, prompt, result, isLoading, error := None, "", None, false, None;
      sent := [];
    }

    /** The analyze button is disabled while loading, without an image, and
        while the prompt is blank. */
    predicate AnalyzeDisabled()
      reads this
    {
      isLoading || imageFile.None? || IsBlank(prompt)
    }

    /** `handleFileChange`: the first chosen file replaces the image and
        clears the old result; choosing nothing changes nothing. */
    method HandleFileChange(files: seq<ImageFile>)
      modifies this`imageFile, this`result
      ensures |files| == 0 ==> imageFile == old(imageFile) && result == old(result)
      ensures |files| > 0 ==> imageFile == Some(files[0]) && result == None
    {
      if |files| > 0 {
        imageFile := Some(files[0]);
        result := None;
      }
    }

    /** `handleAnalyze` up to the `await`: without an image or with a blank
        prompt only the error is set; otherwise the screen starts loading
        with no error and no result. */
    method BeginAnalyze() returns (proceed: bool)
      modifies this`result, this`isLoading, this`error
      ensures proceed <==> imageFile.Some? && !IsBlank(prompt)
      ensures !proceed ==> error == Some(UploadAndPrompt) && result == old(result) && isLoading == old(isLoading)
      ensures proceed ==> isLoading && error == None && result == None
    {
      proceed := imageFile.Some? && !IsBlank(prompt);
      if !proceed {
        error := Some(UploadAndPrompt);
      } else {
        isLoading, error, result := true, None, None;
      }
    }

    /** `handleAnalyze` after the `await`: the answer becomes the result, or
        the error is set; loading stops either way. */
    method FinishAnalyze(response: Result<string>)
      modifies this`result, this`isLoading, this`error
      ensures !isLoading
      ensures response.Ok? ==> result == Some(response.value) && error == old(error)
      ensures response.Err? ==> result == old(result) && error == Some(OrElse(response.message, UnknownError))
    {
      match response {
        case Ok(text) => result := Some(text);
        case Err(message) => error := Some(OrElse(message, UnknownError));
      }
      isLoading := false;
    }

    /** `handleAnalyze`: a valid submit sends one request holding exactly one
        image part and then the prompt; the answer or the fixed failure
        message is shown when loading ends. */
    method HandleAnalyze(remote: Request -> Reply)
      modifies this
      ensures imageFile == old(imageFile) && prompt == old(prompt)
      ensures imageFile.None? || IsBlank(prompt) ==>
        error == Some(UploadAndPrompt) && result == old(result) && isLoading == old(isLoading) && sent == old(sent)
      ensures imageFile.Some? && !IsBlank(prompt) ==>
        && !isLoading
        && sent == old(sent) + [ImageRequest([FileToGenerativePart(imageFile.value)], prompt)]
        && sent[|sent| - 1].contents.parts == [FileToGenerativePart(imageFile.value), TextPart(prompt)]
        && match AnalyzeImage(remote, [FileToGenerativePart(imageFile.value)], prompt)
           case Ok(text) => result == Some(text) && error == None
           case Err(_) => result == None && error == Some(ImageFailure)
    {
      var proceed := BeginAnalyze();
      if proceed {
        var imagePart := FileToGenerativePart(imageFile.value);
        var request := ImageRequest([imagePart], prompt);
        assert request.contents.parts == [imagePart] + [TextPart(prompt)];
        sent := sent + [request];
        var response := AnalyzeImage(remote, [imagePart], prompt);
        FinishAnalyze(response);
      }
    }
  }
}
