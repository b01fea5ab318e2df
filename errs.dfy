/**
 * Go error values as the upload path produces and inspects them: the two context
 * errors, opaque errors raised by collaborators, messages built with errors.New or
 * errors.Errorf, and the wrapping done by errors.Wrap and errors.Wrapf.
 */
module Errs {

  datatype Error =
    | Canceled                               // context.Canceled
    | DeadlineExceeded                       // context.DeadlineExceeded
    | Opaque(id: nat)                        // an error raised by a collaborator
    | Message(text: string)                  // errors.New
    | RouterShape(typeName: string)          // "message router must return string or dest: %T"
    | CaptionShape(typeName: string)         // "caption must return string or array of object: %T"
    | Wrap(context: Stage, cause: Error)     // errors.Wrap / errors.Wrapf with the stage's message

  /** The context messages errors are wrapped with, in the order the upload path meets them. */
  datatype Stage =
    | OpenFile                   // "open file"
    | MessageRouting             // "message routing"
    | DecodeDest                 // "decode dest: %v"
    | CaptionParse               // "caption parse"
    | ParseStyledText            // "parse styled text"
    | InvalidThumbnail(path: string)  // "invalid thumbnail file: %v"
    | OpenThumbnail              // "open thumbnail file"
    | StatFile                   // "stat file"
    | UploadFile                 // "upload file"
    | SeekFile                   // "seek file"
    | DetectMime                 // "detect mime"
    | SendMessage                // "send message"
    | UploadTask                 // "upload"

  /** errors.Is: the error itself or any error it wraps equals the target. */
  predicate Is(e: Error, target: Error)
    ensures Is(e, target) && !e.Wrap? ==> e == target
  {
    e == target || (e.Wrap? && Is(e.cause, target))
  }

  /** Wrapping keeps every error the wrapped one matches, and adds no other match but itself. */
  lemma {:induction false} IsThroughWrap(context: Stage, e: Error, target: Error)
    requires target != Wrap(context, e)
    ensures Is(Wrap(context, e), target) <==> Is(e, target)
  {
  }

  /** A context: still running, or done with the error ctx.Err() reports. */
  datatype Context = Active | Done(cause: Error)
}
