/** The six AI handlers. Article and blog-title generation are gated by the
    free-usage limit and count each successful use; image generation,
    background removal, object removal and resume review are for exclusive
    users only and never touch the counter.

    Each handler is given twice: as a function from the stored state to the
    next state and the response (the specification, carrying the properties),
    and as a method that performs the same steps on the live stores. */
module AiController {
  import opened Ledger
  import opened Backend
  import opened Auth

  /** The admission test of the two gated handlers. */
  function OverFreeLimit(req: Request): (over: bool)
    // an exclusive request is never over the limit
    ensures over ==> req.plan == Free
    // a free request is over it exactly when its counter has reached 10
    ensures req.plan == Free ==> (over <==> req.freeUsage >= FreeUsageLimit)
  {
    req.plan != Exclusive && req.freeUsage >= FreeUsageLimit
  }

  function LimitResponse(successKey: string): Response {
    Response(successKey, false, Message(LimitReachedMessage))
  }

  /** The row a gated handler appends once its generation returned. */
  function GatedRow(req: Request, kind: CreationType, prompt: string, content: string): Creation {
    Creation(req.userId, prompt, content, kind, false)
  }

  /** `generateArticle` (kind Article, rejection key "sucess") and
      `generateBlogTitle` (kind BlogTitle, rejection key "success"):
      limit check, generation, insert, then the counter write for free users. */
  function QuotaGatedStep(s: State, req: Request, kind: CreationType, rejectKey: string, prompt: string,
                          generate: Call<string>, insert: Call<()>, update: Call<()>): (r: Step<Response>)
    // over the limit: rejected before any call, nothing written
    ensures OverFreeLimit(req) ==> r == Step(s, LimitResponse(rejectKey))
    // admitted and answered with the content exactly when every call it makes returns
    ensures r.out.success <==>
              && !OverFreeLimit(req)
              && generate.Returns? && insert.Returns?
              && (req.plan == Exclusive || update.Returns?)
    ensures r.out.success ==> r.out == Succeeded(Content(generate.value))
    // an exclusive user is never stopped by the limit and never has the counter written
    ensures req.plan == Exclusive ==> !OverFreeLimit(req) && r.next.usage == s.usage
    // the counter is written only after generation and insert returned, and
    // then to exactly free_usage + 1, which is at most the limit
    ensures r.next.usage != s.usage ==>
              && req.plan == Free && req.freeUsage < FreeUsageLimit
              && generate.Returns? && insert.Returns? && update.Returns?
              && r.next.usage == s.usage[req.userId := req.freeUsage + 1]
              && r.next.usage[req.userId] <= FreeUsageLimit
    ensures r.out.success && req.plan == Free ==> r.next.usage == s.usage[req.userId := req.freeUsage + 1]
    // the log gains the one row exactly when generation and insert returned
    ensures !OverFreeLimit(req) && generate.Returns? && insert.Returns? ==>
              r.next.creations == s.creations + [GatedRow(req, kind, prompt, generate.value)]
    ensures OverFreeLimit(req) || generate.Throws? || insert.Throws? ==> r.next.creations == s.creations
    // a thrown error is answered with its message; a failed generation or
    // insert leaves everything as it was
    ensures !OverFreeLimit(req) && generate.Throws? ==> r == Step(s, Failed(generate.message))
    ensures !OverFreeLimit(req) && generate.Returns? && insert.Throws? ==> r == Step(s, Failed(insert.message))
    ensures !OverFreeLimit(req) && req.plan == Free && generate.Returns? && insert.Returns? && update.Throws? ==>
              r.out == Failed(update.message) && r.next.usage == s.usage
  {
    if OverFreeLimit(req) then Step(s, LimitResponse(rejectKey))
    else
      match generate
      case Throws(m) => Step(s, Failed(m))
      case Returns(content) =>
        match insert
        case Throws(m) => Step(s, Failed(m))
        case Returns(_) =>
          var logged := s.creations + [GatedRow(req, kind, prompt, content)];
          if req.plan == Exclusive then Step(State(s.usage, logged), Succeeded(Content(content)))
          else
            match update
            case Throws(m) => Step(State(s.usage, logged), Failed(m))
            case Returns(_) =>
              Step(State(s.usage[req.userId := req.freeUsage + 1], logged), Succeeded(Content(content)))
  }

  /** `generateImage`: exclusive only; the generated image is uploaded and its
      secure URL recorded, with `publish` defaulting to false. */
  function GenerateImageStep(s: State, req: Request, prompt: string, publish: Option<bool>,
                             generate: Call<string>, upload: Call<string>, insert: Call<()>): (r: Step<Response>)
    // the counter is never read or written
    ensures r.next.usage == s.usage
    // every non-exclusive request is rejected, whatever its counter, with no effect
    ensures req.plan != Exclusive ==> r == Step(s, Failed(ExclusiveOnlyMessage))
    ensures r.out.success <==> req.plan == Exclusive && generate.Returns? && upload.Returns? && insert.Returns?
    ensures r.out.success ==>
              && r.out == Succeeded(SecureUrl(upload.value))
              && r.next.creations == s.creations + [Creation(req.userId, prompt, upload.value, Image, publish == Some(true))]
              && (publish.None? ==> !r.next.creations[|s.creations|].publish)
    ensures !r.out.success ==> r.next.creations == s.creations
    // the first call that throws names the error
    ensures req.plan == Exclusive && generate.Throws? ==> r.out == Failed(generate.message)
    ensures req.plan == Exclusive && generate.Returns? && upload.Throws? ==> r.out == Failed(upload.message)
    ensures req.plan == Exclusive && generate.Returns? && upload.Returns? && insert.Throws? ==> r.out == Failed(insert.message)
  {
    if req.plan != Exclusive then Step(s, Failed(ExclusiveOnlyMessage))
    else
      match generate
      case Throws(m) => Step(s, Failed(m))
      case Returns(_) =>
        match upload
        case Throws(m) => Step(s, Failed(m))
        case Returns(secureUrl) =>
          match insert
          case Throws(m) => Step(s, Failed(m))
          case Returns(_) =>
            var visible := match publish case Some(p) => p case None => false;
            Step(State(s.usage, s.creations + [Creation(req.userId, prompt, secureUrl, Image, visible)]),
                 Succeeded(SecureUrl(secureUrl)))
  }

  const BackgroundRemovalPrompt := "Remove background from image"

  /** `removeImageBackground`: exclusive only; a non-exclusive request reaches
      `res.join`, whose TypeError the catch block answers. */
  function RemoveBackgroundStep(s: State, req: Request, image: Option<string>, upload: Call<string>, insert: Call<()>)
    : (r: Step<Response>)
    ensures r.next.usage == s.usage
    ensures req.plan != Exclusive ==> r == Step(s, Failed(ResJoinMessage))
    ensures req.plan == Exclusive && image.None? ==> r == Step(s, Failed(UndefinedPropertyMessage("path")))
    ensures r.out.success <==> req.plan == Exclusive && image.Some? && upload.Returns? && insert.Returns?
    ensures r.out.success ==>
              && r.out == Succeeded(Content(upload.value))
              && r.next.creations == s.creations + [Creation(req.userId, BackgroundRemovalPrompt, upload.value, Image, false)]
    ensures !r.out.success ==> r.next.creations == s.creations
    ensures req.plan == Exclusive && image.Some? && upload.Throws? ==> r.out == Failed(upload.message)
    ensures req.plan == Exclusive && image.Some? && upload.Returns? && insert.Throws? ==> r.out == Failed(insert.message)
  {
    if req.plan != Exclusive then Step(s, Failed(ResJoinMessage))
    else if image.None? then Step(s, Failed(UndefinedPropertyMessage("path")))
    else
      match upload
      case Throws(m) => Step(s, Failed(m))
      case Returns(secureUrl) =>
        match insert
        case Throws(m) => Step(s, Failed(m))
        case Returns(_) =>
          Step(State(s.usage, s.creations + [Creation(req.userId, BackgroundRemovalPrompt, secureUrl, Image, false)]),
               Succeeded(Content(secureUrl)))
  }

  function ObjectRemovalPrompt(objectName: string): string {
    "Removed " + objectName + " from image"
  }

  /** `removeImageObject`: exclusive only, rejected through `res.join` like
      background removal. `upload` stands for the upload together with the
      construction of the transformed URL. */
  function RemoveObjectStep(s: State, req: Request, objectName: Option<string>, image: Option<string>,
                            upload: Call<string>, insert: Call<()>): (r: Step<Response>)
    ensures r.next.usage == s.usage
    ensures req.plan != Exclusive ==> r == Step(s, Failed(ResJoinMessage))
    ensures req.plan == Exclusive && image.None? ==> r == Step(s, Failed(UndefinedPropertyMessage("path")))
    // a missing object name is only noticed after the upload, when it is trimmed
    ensures req.plan == Exclusive && image.Some? && upload.Returns? && objectName.None? ==>
              r == Step(s, Failed(UndefinedPropertyMessage("trim")))
    ensures r.out.success <==> req.plan == Exclusive && image.Some? && upload.Returns? && objectName.Some? && insert.Returns?
    ensures r.out.success ==>
              && r.out == Succeeded(Content(upload.value))
              && r.next.creations == s.creations + [Creation(req.userId, ObjectRemovalPrompt(objectName.value), upload.value, Image, false)]
    ensures !r.out.success ==> r.next.creations == s.creations
    ensures req.plan == Exclusive && image.Some? && upload.Throws? ==> r.out == Failed(upload.message)
    ensures req.plan == Exclusive && image.Some? && upload.Returns? && objectName.Some? && insert.Throws? ==>
              r.out == Failed(insert.message)
  {
    if req.plan != Exclusive then Step(s, Failed(ResJoinMessage))
    else if image.None? then Step(s, Failed(UndefinedPropertyMessage("path")))
    else
      match upload
      case Throws(m) => Step(s, Failed(m))
      case Returns(imageUrl) =>
        match objectName
        case None => Step(s, Failed(UndefinedPropertyMessage("trim")))
        case Some(name) =>
          match insert
          case Throws(m) => Step(s, Failed(m))
          case Returns(_) =>
            Step(State(s.usage, s.creations + [Creation(req.userId, ObjectRemovalPrompt(name), imageUrl, Image, false)]),
                 Succeeded(Content(imageUrl)))
  }

  const ResumeReviewPrompt := "Review the uploaded resume"

  /** `resumeReview`: exclusive only (through `res.join`), then the 5 MB cap,
      then reading, parsing and reviewing the file. `resumeSize` is the
      uploaded file's size in bytes, None when no file was uploaded. */
  function ResumeReviewStep(s: State, req: Request, resumeSize: Option<nat>, review: Call<string>, insert: Call<()>)
    : (r: Step<Response>)
    ensures r.next.usage == s.usage
    ensures req.plan != Exclusive ==> r == Step(s, Failed(ResJoinMessage))
    ensures req.plan == Exclusive && resumeSize.None? ==> r == Step(s, Failed(UndefinedPropertyMessage("size")))
    // a file larger than 5 MB is refused before it is read; one of exactly 5 MB passes
    ensures req.plan == Exclusive && resumeSize.Some? && resumeSize.value > MaxResumeBytes ==>
              r == Step(s, Failed(ResumeTooLargeMessage))
    ensures r.out.success <==>
              && req.plan == Exclusive && resumeSize.Some? && resumeSize.value <= MaxResumeBytes
              && review.Returns? && insert.Returns?
    ensures r.out.success ==>
              && r.out == Succeeded(Content(review.value))
              && r.next.creations == s.creations + [Creation(req.userId, ResumeReviewPrompt, review.value, CreationType.ResumeReview, false)]
    ensures !r.out.success ==> r.next.creations == s.creations
    ensures req.plan == Exclusive && resumeSize.Some? && resumeSize.value <= MaxResumeBytes && review.Throws? ==>
              r.out == Failed(review.message)
    ensures req.plan == Exclusive && resumeSize.Some? && resumeSize.value <= MaxResumeBytes && review.Returns? && insert.Throws? ==>
              r.out == Failed(insert.message)
  {
    if req.plan != Exclusive then Step(s, Failed(ResJoinMessage))
    else
      match resumeSize
      case None => Step(s, Failed(UndefinedPropertyMessage("size")))
      case Some(size) =>
        if size > MaxResumeBytes then Step(s, Failed(ResumeTooLargeMessage))
        else
          match review
          case Throws(m) => Step(s, Failed(m))
          case Returns(content) =>
            match insert
            case Throws(m) => Step(s, Failed(m))
            case Returns(_) =>
              Step(State(s.usage, s.creations + [Creation(req.userId, ResumeReviewPrompt, content, CreationType.ResumeReview, false)]),
                   Succeeded(Content(content)))
  }

  /** The shared body of the two gated handlers, on the live stores. */
  method RunQuotaGated(db: Store, req: Request, kind: CreationType, rejectKey: string, prompt: string,
                       generate: Call<string>, insert: Call<()>, update: Call<()>) returns (resp: Response)
    modifies db
    ensures var r := QuotaGatedStep(old(db.Snapshot()), req, kind, rejectKey, prompt, generate, insert, update);
            db.Snapshot() == r.next && resp == r.out
  {
    if OverFreeLimit(req) {
      return LimitResponse(rejectKey);
    }
    if generate.Throws? {
      return Failed(generate.message);
    }
    var content := generate.value;
    db.InsertCreation(GatedRow(req, kind, prompt, content), insert);
    if insert.Throws? {
      return Failed(insert.message);
    }
    if req.plan != Exclusive {
      db.UpdateUserMetadata(req.userId, req.freeUsage + 1, update);
      if update.Throws? {
        return Failed(update.message);
      }
    }
    resp := Succeeded(Content(content));
  }

  method GenerateArticle(db: Store, req: Request, prompt: string,
                         generate: Call<string>, insert: Call<()>, update: Call<()>) returns (resp: Response)
    modifies db
    ensures var r := QuotaGatedStep(old(db.Snapshot()), req, Article, MisspeltSuccessKey, prompt, generate, insert, update);
            db.Snapshot() == r.next && resp == r.out
  {
    resp := RunQuotaGated(db, req, Article, MisspeltSuccessKey, prompt, generate, insert, update);
  }

  method GenerateBlogTitle(db: Store, req: Request, prompt: string,
                           generate: Call<string>, insert: Call<()>, update: Call<()>) returns (resp: Response)
    modifies db
    ensures var r := QuotaGatedStep(old(db.Snapshot()), req, BlogTitle, SuccessKey, prompt, generate, insert, update);
            db.Snapshot() == r.next && resp == r.out
  {
    resp := RunQuotaGated(db, req, BlogTitle, SuccessKey, prompt, generate, insert, update);
  }

  method GenerateImage(db: Store, req: Request, prompt: string, publish: Option<bool>,
                       generate: Call<string>, upload: Call<string>, insert: Call<()>) returns (resp: Response)
    modifies db
    ensures var r := GenerateImageStep(old(db.Snapshot()), req, prompt, publish, generate, upload, insert);
            db.Snapshot() == r.next && resp == r.out
  {
    if req.plan != Exclusive {
      return Failed(ExclusiveOnlyMessage);
    }
    if generate.Throws? {
      return Failed(generate.message);
    }
    if upload.Throws? {
      return Failed(upload.message);
    }
    var secureUrl := upload.value;
    var visible := if publish.Some? then publish.value else false;
    db.InsertCreation(Creation(req.userId, prompt, secureUrl, Image, visible), insert);
    if insert.Throws? {
      return Failed(insert.message);
    }
    resp := Succeeded(SecureUrl(secureUrl));
  }

  method RemoveImageBackground(db: Store, req: Request, image: Option<string>,
                               upload: Call<string>, insert: Call<()>) returns (resp: Response)
    modifies db
    ensures var r := RemoveBackgroundStep(old(db.Snapshot()), req, image, upload, insert);
            db.Snapshot() == r.next && resp == r.out
  {
    if req.plan != Exclusive {
      return Failed(ResJoinMessage);
    }
    if image.None? {
      return Failed(UndefinedPropertyMessage("path"));
    }
    if upload.Throws? {
      return Failed(upload.message);
    }
    var secureUrl := upload.value;
    db.InsertCreation(Creation(req.userId, BackgroundRemovalPrompt, secureUrl, Image, false), insert);
    if insert.Throws? {
      return Failed(insert.message);
    }
    resp := Succeeded(Content(secureUrl));
  }

  method RemoveImageObject(db: Store, req: Request, objectName: Option<string>, image: Option<string>,
                           upload: Call<string>, insert: Call<()>) returns (resp: Response)
    modifies db
    ensures var r := RemoveObjectStep(old(db.Snapshot()), req, objectName, image, upload, insert);
            db.Snapshot() == r.next && resp == r.out
  {
    if req.plan != Exclusive {
      return Failed(ResJoinMessage);
    }
    if image.None? {
      return Failed(UndefinedPropertyMessage("path"));
    }
    if upload.Throws? {
      return Failed(upload.message);
    }
    var imageUrl := upload.value;
    if objectName.None? {
      return Failed(UndefinedPropertyMessage("trim"));
    }
    db.InsertCreation(Creation(req.userId, ObjectRemovalPrompt(objectName.value), imageUrl, Image, false), insert);
    if insert.Throws? {
      return Failed(insert.message);
    }
    resp := Succeeded(Content(imageUrl));
  }

  method ResumeReview(db: Store, req: Request, resumeSize: Option<nat>,
                      review: Call<string>, insert: Call<()>) returns (resp: Response)
    modifies db
    ensures var r := ResumeReviewStep(old(db.Snapshot()), req, resumeSize, review, insert);
            db.Snapshot() == r.next && resp == r.out
  {
    if req.plan != Exclusive {
      return Failed(ResJoinMessage);
    }
    if resumeSize.None? {
      return Failed(UndefinedPropertyMessage("size"));
    }
    if resumeSize.value > MaxResumeBytes {
      return Failed(ResumeTooLargeMessage);
    }
    if review.Throws? {
      return Failed(review.message);
    }
    var content := review.value;
    db.InsertCreation(Creation(req.userId, ResumeReviewPrompt, content, CreationType.ResumeReview, false), insert);
    if insert.Throws? {
      return Failed(insert.message);
    }
    resp := Succeeded(Content(content));
  }
}
