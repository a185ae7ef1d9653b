/**
 * GetFileSizeTask: a transfer task that only reads the Content-Length of the
 * APK's URL and reports success exactly when the length is positive.
 */
module FileSize {
  import opened Platform

  /** What probing the URL produced: an IOException, or URLConnection.getContentLength() (-1 when unknown). */
  datatype Probe = ProbeFailed | ContentLength(length: int)

  /** doInBackground: 0 on an IOException, the content length otherwise. */
  function ProbeResult(probe: Probe): (size: int)
    ensures size > 0 <==> probe.ContentLength? && probe.length > 0
    ensures probe.ProbeFailed? ==> size == 0
    ensures probe.ContentLength? ==> size == probe.length
  {
    match probe
    case ProbeFailed => 0
    case ContentLength(length) => length
  }

  /** onPostExecute's one notifier call: success for a positive size, otherwise a failure that is never retried. */
  function SizeNotification(size: int): (n: Notification)
    ensures n == DownloadSuccessful <==> size > 0
    ensures n != DownloadSuccessful ==> n == DownloadFailed(false)
  {
    if size > 0 then DownloadSuccessful else DownloadFailed(false)
  }

  /** A failed probe or an unknown length never reports success, and never asks for a retry. */
  lemma ProbeOutcome(probe: Probe)
    ensures SizeNotification(ProbeResult(probe)) == DownloadSuccessful <==> probe.ContentLength? && probe.length > 0
    ensures probe.ProbeFailed? || probe.length <= 0 ==> SizeNotification(ProbeResult(probe)) == DownloadFailed(false)
  {
  }

  class GetFileSizeTask {
    const urlString: string
    var size: int

    constructor (urlString: string)
      ensures this.urlString == urlString && size == 0
    {
      this.urlString := urlString;
      size := 0;
    }

    /** getSize. */
    function GetSize(): (stored: int)
      reads this
      ensures stored == size
    {
      size
    }

    /** onProgressUpdate: this task displays no progress, and its empty frame says it changes nothing. */
    method OnProgressUpdate(progress: seq<int>) returns (displayed: seq<Action>)
      ensures displayed == []
    {
      displayed := [];
    }

    /** onPostExecute: store the result first, then make exactly one notifier call. */
    method OnPostExecute(result: int) returns (calls: seq<Notification>)
      modifies this`size
      ensures GetSize() == result
      ensures calls == [SizeNotification(result)]
    {
      size := result;
      if size > 0 {
        calls := [DownloadSuccessful];
      } else {
        calls := [DownloadFailed(false)];
      }
    }
  }
}
