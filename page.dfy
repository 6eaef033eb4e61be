/** `src/pages/breed-identification-demo/index.jsx`: the state of the
    breed-identification page and its handlers. The React state variables
    are the fields of `DemoPage`; `localStorage` and the object-URL registry
    are objects it holds. What the vendor call returns, the two `Date.now()`
    readings and whether `localStorage.setItem` succeeds are parameters. */
module BreedIdentificationDemo {
  import opened Wrappers
  import opened Text
  import opened Json
  import opened Browser
  import opened BreedIdentificationService

  const MaxUploadBytes := 10 * 1024 * 1024
  const HistoryCapacity := 10
  const PlaceholderApiKey := "your-openai-api-key-here"

  datatype ErrorType = Upload | Configuration | Processing

  /** The `{type, message}` object kept in the `error` state. */
  datatype PageError = PageError(kind: ErrorType, message: string)

  const FileTooLarge := PageError(Upload, "File size too large. Please choose an image smaller than 10MB.")
  const NotAnImage := PageError(Upload, "Please select a valid image file (JPG, PNG, WEBP).")
  const KeyNotConfigured := PageError(Configuration, "OpenAI API key is not configured. Please set your VITE_OPENAI_API_KEY in the environment variables to use AI-powered breed identification.")
  const DefaultProcessingMessage := "Failed to process image. Please try again."

  function Min(a: int, b: int): int
  {
    if a <= b then a else b
  }

  /** `VITE_OPENAI_API_KEY` is set, non-empty and not the placeholder. */
  predicate ApiKeyConfigured(apiKey: Option<string>)
  {
    Truthy(apiKey) && apiKey.value != PlaceholderApiKey
  }

  /** The pre-flight checks of `handleImageUpload`, in their order: size,
      then type, then key. `None`: the file is accepted. */
  function UploadRejection(file: File, apiKey: Option<string>): (r: Option<PageError>)
    ensures r == Some(FileTooLarge) <==> file.size > MaxUploadBytes
    ensures r == Some(NotAnImage) <==>
              file.size <= MaxUploadBytes && !StartsWith(file.mimeType, "image/")
    ensures r == Some(KeyNotConfigured) <==>
              file.size <= MaxUploadBytes && StartsWith(file.mimeType, "image/") && !ApiKeyConfigured(apiKey)
    ensures r == None <==>
              file.size <= MaxUploadBytes && StartsWith(file.mimeType, "image/") && ApiKeyConfigured(apiKey)
  {
    if file.size > MaxUploadBytes then Some(FileTooLarge)
    else if !StartsWith(file.mimeType, "image/") then Some(NotAnImage)
    else if !ApiKeyConfigured(apiKey) then Some(KeyNotConfigured)
    else None
  }

  /** `{type: 'processing', message: err?.message || default}`. */
  function ProcessingError(message: Option<string>): (e: PageError)
    ensures e.kind == Processing && e.message != ""
    ensures Truthy(message) ==> e.message == message.value
    ensures !Truthy(message) ==> e.message == DefaultProcessingMessage
  {
    PageError(Processing, if message.Some? && message.value != "" then message.value else DefaultProcessingMessage)
  }

  /** `[prediction, ...recentPredictions.slice(0, 9)]`: the new prediction
      first, then the older ones in order, at most ten in all. */
  function WithPrediction(history: seq<Record>, prediction: Record): (r: seq<Record>)
    ensures |r| == Min(|history| + 1, HistoryCapacity)
    ensures r[0] == prediction
    ensures forall i :: 1 <= i < |r| ==> r[i] == history[i - 1]
  {
    [prediction] + history[..Min(|history|, HistoryCapacity - 1)]
  }

  /** The first (most recent) `HistoryCapacity` entries of `s`. */
  function Newest(s: seq<Record>): seq<Record>
  {
    s[..Min(|s|, HistoryCapacity)]
  }

  function Reversed(s: seq<Record>): seq<Record>
  {
    if s == [] then [] else Reversed(s[1..]) + [s[0]]
  }

  /** The history after saving `predictions` one after the other. */
  function SaveAll(history: seq<Record>, predictions: seq<Record>): seq<Record>
    decreases |predictions|
  {
    if predictions == [] then history
    else SaveAll(WithPrediction(history, predictions[0]), predictions[1..])
  }

  lemma WithPredictionIsNewest(history: seq<Record>, prediction: Record)
    ensures WithPrediction(history, prediction) == Newest([prediction] + history)
  {
  }

  /** Truncating the tail first does not change the newest entries. */
  lemma NewestAbsorbs(front: seq<Record>, back: seq<Record>)
    ensures Newest(front + Newest(back)) == Newest(front + back)
  {
  }

  /** Saving a non-empty series of predictions leaves the newest ten of them,
      most recent first, followed by the newest of the earlier history: the
      list is most-recent-first, bounded by ten, and evicts oldest first. */
  lemma {:induction false} SaveAllKeepsNewest(history: seq<Record>, predictions: seq<Record>)
    requires predictions != []
    ensures SaveAll(history, predictions) == Newest(Reversed(predictions) + history)
    decreases |predictions|
  {
    var p, rest := predictions[0], predictions[1..];
    WithPredictionIsNewest(history, p);
    assert Reversed(predictions) == Reversed(rest) + [p];
    if rest == [] {
      assert Reversed(rest) == [];
      assert SaveAll(history, predictions) == SaveAll(WithPrediction(history, p), rest);
    } else {
      SaveAllKeepsNewest(WithPrediction(history, p), rest);
      NewestAbsorbs(Reversed(rest), [p] + history);
      assert Reversed(rest) + ([p] + history) == Reversed(predictions) + history;
    }
  }

  /** The `recentPredictions` the mount effect leaves: the stored list when
      it parses, and the initial empty list when nothing is stored or the
      stored text is malformed (the parse error is only logged). */
  function LoadedHistory(saved: Option<Persisted>): (h: seq<Record>)
    ensures saved.Some? && saved.value.Entries? ==> h == saved.value.records
    ensures saved.None? || saved.value.Malformed? ==> h == []
  {
    match saved
    case Some(Entries(records)) => records
    case _ => []
  }

  /** Whether `localStorage.setItem` stored the entry or threw (for instance
      on an exceeded quota). */
  datatype WriteOutcome = Written | WriteFailed(error: ThrownError)

  class DemoPage {
    var selectedImage: Option<File>
    var isProcessing: bool
    var result: Option<Record>
    var error: Option<PageError>
    var recentPredictions: seq<Record>
    const storage: LocalStorage
    const urls: ObjectUrls
    /** `import.meta.env.VITE_OPENAI_API_KEY`, fixed at build time. */
    const apiKey: Option<string>

    /** The URL registry is consistent, and a selected image is always one
        that passed the pre-flight checks. */
    ghost predicate Valid()
      reads this, urls
    {
      urls.Valid() &&
      (selectedImage.Some? ==> UploadRejection(selectedImage.value, apiKey) == None)
    }

    /** Mounting the page: the initial state, then the load effect. */
    constructor (storage: LocalStorage, urls: ObjectUrls, apiKey: Option<string>)
      requires urls.Valid()
      ensures Valid()
      ensures this.storage == storage && this.urls == urls && this.apiKey == apiKey
      ensures selectedImage == None && !isProcessing && result == None && error == None
      ensures recentPredictions == LoadedHistory(storage.recentPredictions)
    {
      this.storage := storage;
      this.urls := urls;
      this.apiKey := apiKey;
      selectedImage, isProcessing, result, error := None, false, None, None;
      recentPredictions := [];
      match storage.recentPredictions {
        case Some(Entries(records)) =>
          recentPredictions := records;
        case Some(Malformed(_)) =>
        case None =>
      }
    }

    /** `saveToHistory(prediction)`: the in-memory list is updated first;
        then the same list is persisted, unless `setItem` throws, in which
        case the stored entry keeps its old value and the error is returned. */
    method SaveToHistory(prediction: Record, write: WriteOutcome) returns (thrown: Option<ThrownError>)
      modifies this`recentPredictions, storage
      ensures recentPredictions == WithPrediction(old(recentPredictions), prediction)
      ensures write.Written? ==>
                storage.recentPredictions == Some(Entries(recentPredictions)) && thrown == None
      ensures write.Written? ==> LoadedHistory(storage.recentPredictions) == recentPredictions
      ensures write.WriteFailed? ==>
                storage.recentPredictions == old(storage.recentPredictions) && thrown == Some(write.error)
    {
      var updated := WithPrediction(recentPredictions, prediction);
      recentPredictions := updated;
      match write
      case Written =>
        storage.recentPredictions := Some(Entries(updated));
        thrown := None;
      case WriteFailed(e) =>
        thrown := Some(e);
    }

    /** The synchronous part of `handleImageUpload(file)`: a missing file is
        ignored; a rejected one only sets `error`; an accepted one becomes the
        selected image and the page enters the processing state. */
    method BeginUpload(file: Option<File>) returns (accepted: bool)
      requires Valid()
      modifies this`selectedImage, this`error, this`result, this`isProcessing
      ensures Valid()
      ensures accepted <==> file.Some? && UploadRejection(file.value, apiKey) == None
      ensures file.None? ==> unchanged(this)
      ensures file.Some? && !accepted ==>
                && error == UploadRejection(file.value, apiKey)
                && selectedImage == old(selectedImage) && result == old(result)
                && isProcessing == old(isProcessing)
      ensures accepted ==> selectedImage == file && error == None && result == None && isProcessing
    {
      if file.None? {
        return false;
      }
      var rejection := UploadRejection(file.value, apiKey);
      if rejection.Some? {
        error := rejection;
        return false;
      }
      selectedImage := file;
      error := None;
      result := None;
      isProcessing := true;
      accepted := true;
    }

    /** The asynchronous part of `handleImageUpload(file)`, after the vendor
        call settled. On success the prediction becomes the result and, with a
        fresh object URL of the file as `imageUrl`, the head of the history; on
        failure the error carries the service's message. Either way the page
        leaves the processing state. */
    method FinishUpload(file: File, reply: BreedReply, timestamp: nat, idClock: nat, write: WriteOutcome)
      requires Valid()
      modifies this`result, this`error, this`isProcessing, this`recentPredictions, storage, urls
      ensures Valid() && !isProcessing
      ensures reply.Answered? ==>
                var prediction := WithIdentity(reply.fields, timestamp, idClock);
                var imageUrl := BlobUrl(old(urls.minted) + 1);
                && result == Some(prediction)
                && recentPredictions == WithPrediction(old(recentPredictions), prediction["imageUrl" := Str(imageUrl)])
                && urls.minted == old(urls.minted) + 2
                && urls.live == old(urls.live) + {imageUrl}
                && urls.log == old(urls.log) + [Created(BlobUrl(old(urls.minted))),
                                                Revoked(BlobUrl(old(urls.minted))), Created(imageUrl)]
                && (write.Written? ==>
                      storage.recentPredictions == Some(Entries(recentPredictions)) && error == old(error))
                && (write.WriteFailed? ==>
                      && storage.recentPredictions == old(storage.recentPredictions)
                      && error == Some(ProcessingError(write.error.message)))
    ensures reply.Threw? ==>
                && result == old(result) && recentPredictions == old(recentPredictions)
                && storage.recentPredictions == old(storage.recentPredictions)
                && error == Some(PageError(Processing, VendorErrorMessage(reply.error)))
                && urls.minted == old(urls.minted) + 1
                && urls.live == old(urls.live) + {BlobUrl(old(urls.minted))}
                && urls.log == old(urls.log) + [Created(BlobUrl(old(urls.minted)))]
    {
      var identified := IdentifyBreedWithOpenAI(urls, file, reply, timestamp, idClock);
      match identified {
        case Success(prediction) =>
          result := Some(prediction);
          var imageUrl := urls.Create(file);
          var thrown := SaveToHistory(prediction["imageUrl" := Str(imageUrl)], write);
          if thrown.Some? {
            error := Some(ProcessingError(thrown.value.message));
          }
        case Failure(message) =>
          error := Some(ProcessingError(Some(message)));
      }
      // finally
      isProcessing := false;
    }

    /** The state `handleImageUpload(file)` leaves once its vendor call has
        settled, relative to the state it started from. */
    twostate predicate UploadDone(file: Option<File>, reply: BreedReply, timestamp: nat, idClock: nat,
                                  write: WriteOutcome)
      reads this, storage, urls
    {
      if file.None? then
        unchanged(this, storage, urls)
      else if UploadRejection(file.value, apiKey).Some? then
        // rejected before any state but `error` changes, and before the vendor call
        && error == UploadRejection(file.value, apiKey)
        && selectedImage == old(selectedImage) && result == old(result)
        && isProcessing == old(isProcessing) && recentPredictions == old(recentPredictions)
        && unchanged(storage, urls)
      else
        && selectedImage == file && !isProcessing
        && match reply {
             case Answered(fields) =>
               var prediction := WithIdentity(fields, timestamp, idClock);
               var imageUrl := BlobUrl(old(urls.minted) + 1);
               && result == Some(prediction)
               && recentPredictions == WithPrediction(old(recentPredictions), prediction["imageUrl" := Str(imageUrl)])
               && urls.minted == old(urls.minted) + 2
               && urls.live == old(urls.live) + {imageUrl}
               && urls.log == old(urls.log) + [Created(BlobUrl(old(urls.minted))),
                                               Revoked(BlobUrl(old(urls.minted))), Created(imageUrl)]
               && (write.Written? ==>
                     storage.recentPredictions == Some(Entries(recentPredictions)) && error == None)
               && (write.WriteFailed? ==>
                     && storage.recentPredictions == old(storage.recentPredictions)
                     && error == Some(ProcessingError(write.error.message)))
             case Threw(e) =>
               && result == None && recentPredictions == old(recentPredictions)
               && storage.recentPredictions == old(storage.recentPredictions)
               && error == Some(PageError(Processing, VendorErrorMessage(e)))
               && urls.minted == old(urls.minted) + 1
               && urls.live == old(urls.live) + {BlobUrl(old(urls.minted))}
               && urls.log == old(urls.log) + [Created(BlobUrl(old(urls.minted)))]
           }
    }

    /** `handleImageUpload(file)`, run to completion. */
    method HandleImageUpload(file: Option<File>, reply: BreedReply, timestamp: nat, idClock: nat,
                             write: WriteOutcome)
      requires Valid()
      modifies this, storage, urls
      ensures Valid()
      ensures UploadDone(file, reply, timestamp, idClock, write)
    {
      var accepted := BeginUpload(file);
      if accepted {
        FinishUpload(file.value, reply, timestamp, idClock, write);
      }
    }

    /** `handleRetry`: with a selected image, the whole upload path again on
        that same file (which passes the checks again, so the vendor is called
        again); without one, only `error` and `result` are cleared. */
    method Retry(reply: BreedReply, timestamp: nat, idClock: nat, write: WriteOutcome)
      requires Valid()
      modifies this, storage, urls
      ensures Valid()
      ensures old(selectedImage).Some? ==>
                && UploadDone(old(selectedImage), reply, timestamp, idClock, write)
                && selectedImage == old(selectedImage) && urls.minted > old(urls.minted)
      ensures old(selectedImage).None? ==>
                && error == None && result == None
                && selectedImage == old(selectedImage) && isProcessing == old(isProcessing)
                && recentPredictions == old(recentPredictions) && unchanged(storage, urls)
    {
      if selectedImage.Some? {
        HandleImageUpload(selectedImage, reply, timestamp, idClock, write);
      } else {
        error := None;
        result := None;
      }
    }

    /** `handleClearError`. */
    method ClearError()
      requires Valid()
      modifies this`error
      ensures Valid() && error == None
    {
      error := None;
    }

    /** `handleSelectPrediction(prediction)`: shows a history entry; the
        history and the stored entry are untouched. */
    method SelectPrediction(prediction: Record)
      requires Valid()
      modifies this`result, this`selectedImage, this`error
      ensures Valid()
      ensures result == Some(prediction) && selectedImage == None && error == None
    {
      result := Some(prediction);
      selectedImage := None;
      error := None;
    }

    /** `handleClearHistory`: empties the list and removes the stored entry,
        so that the next mount loads an empty history. */
    method ClearHistory()
      requires Valid()
      modifies this`recentPredictions, storage
      ensures Valid()
      ensures recentPredictions == [] && storage.recentPredictions == None
      ensures LoadedHistory(storage.recentPredictions) == []
    {
      recentPredictions := [];
      storage.recentPredictions := None;
    }

    /** `handleNewIdentification`: back to the empty upload state; the history
        and the stored entry are untouched. */
    method NewIdentification()
      requires Valid()
      modifies this`selectedImage, this`result, this`error, this`isProcessing
      ensures Valid()
      ensures selectedImage == None && result == None && error == None && !isProcessing
    {
      selectedImage := None;
      result := None;
      error := None;
      isProcessing := false;
    }
  }

  /** An oversized photo is turned away before any vendor call. */
  method RejectionScenario()
  {
    var storage := new LocalStorage(None);
    var urls := new ObjectUrls();
    var page := new DemoPage(storage, urls, Some("sk-live-key"));
    var huge := File("herd.jpg", 11 * 1024 * 1024, "image/jpeg");
    page.HandleImageUpload(Some(huge), Threw(ThrownError(None, None)), 0, 0, Written);
    assert page.error == Some(FileTooLarge) && urls.log == [] && page.selectedImage == None;
  }

  /** A 2 MB JPEG with a configured key: a rate-limited attempt keeps the
      photo selected; the retry's "Gir" reply becomes the result and the
      head of the history. */
  method RetryScenario()
  {
    var storage := new LocalStorage(None);
    var urls := new ObjectUrls();
    var page := new DemoPage(storage, urls, Some("sk-live-key"));
    var photo := File("cow.jpg", 2 * 1000 * 1000, "image/jpeg");
    assert StartsWith(photo.mimeType, "image/");
    page.HandleImageUpload(Some(photo), Threw(ThrownError(Some(429), None)), 0, 0, Written);
    assert page.error == Some(PageError(Processing, RateLimitMessage));
    assert page.selectedImage == Some(photo) && page.recentPredictions == [];

    var reply := map["breedName" := Str("Gir"), "confidence" := Num(0.92)];
    page.Retry(Answered(reply), 1700000000000, 1700000000000, Written);
    assert page.result.Some? && page.result.value["breedName"] == Str("Gir");
    assert |page.recentPredictions| == 1 && page.recentPredictions[0]["breedName"] == Str("Gir");
    assert page.error == None && !page.isProcessing;
    assert storage.recentPredictions == Some(Entries(page.recentPredictions));
  }
}
