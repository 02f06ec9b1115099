/** The legacy `updateCampaignActiveStatus` of
    week2/legacy/services/campaign.ts: a bare axios post, a global SWR
    revalidation and a hand-written `try`/`catch`/`finally` around a local
    `success` flag. */
module LegacyCampaign {
  import opened Js
  import opened Http
  import CampaignSchema
  import CampaignApi
  import CampaignService

  /** What a step of the function can throw: an `AxiosError`, or anything
      else. */
  datatype Thrown = AxiosRejection(failure: Failure) | OtherError

  /** What the function does, in order. */
  datatype Step =
    | Posted(url: string, payload: Json)
    | Revalidated(key: string)
    | AlertShown(message: string)
    | FinallyCalled(success: bool)

  const ApologyMessage := "이용에 불편을 드려 죄송합니다.\n잠시 후, 다시 시도해주세요."

  /** `const { error, message } = err.response?.data` throws when there is
      no response, or when its body is absent. */
  predicate DestructureThrows(err: Thrown) {
    err.AxiosRejection? && (err.failure.response.None? || err.failure.response.value.data.None?)
  }

  /** `post` is the rejection of the post, if it is rejected; `revalidation`
      the rejection of `mutate("/auto-campaign/all")`, if it is. `escapes`
      says the `TypeError` of the destructuring leaves the function. */
  method UpdateCampaignActiveStatus(params: CampaignService.Params, post: Option<Thrown>, revalidation: Option<Thrown>)
    returns (steps: seq<Step>, escapes: bool)
    ensures var caught := if post.Some? then post else revalidation;
      && (escapes <==> caught.Some? && DestructureThrows(caught.value))
      && steps == [Posted("/auto-campaign/" + CampaignApi.StatusPath(CampaignService.NextStatus(params.activeStatus)),
                          CampaignApi.InactiveJson(CampaignSchema.InactiveDto(params.id)))]
                  + (if post.None? then [Revalidated("/auto-campaign/all")] else [])
                  + (if caught.Some? && !escapes then [AlertShown(ApologyMessage)] else [])
                  + (if params.onFinally.Some? then [FinallyCalled(post.None?)] else [])
    ensures forall i :: 0 <= i < |steps| - 1 ==> !steps[i].FinallyCalled?
    ensures forall i :: 0 <= i < |steps| && steps[i].AlertShown? ==> steps[i].message == ApologyMessage
  {
    var next := CampaignService.NextStatus(params.activeStatus);
    var success := false;
    var caught: Option<Thrown> := None;
    escapes := false;
    // try
    steps := [Posted("/auto-campaign/" + CampaignApi.StatusPath(next), CampaignApi.InactiveJson(CampaignSchema.InactiveDto(params.id)))];
    if post.Some? {
      caught := post;
    } else {
      success := true;
      steps := steps + [Revalidated("/auto-campaign/all")];
      caught := revalidation;
    }
    // catch
    if caught.Some? {
      var errMessage := ApologyMessage;
      if caught.value.AxiosRejection? {
        var body := caught.value.failure.response;
        if body.None? || body.value.data.None? {
          escapes := true;
        }
      }
      if !escapes {
        steps := steps + [AlertShown(errMessage)];
      }
    }
    // finally
    if params.onFinally.Some? {
      steps := steps + [FinallyCalled(success)];
    }
  }

  /** A failed revalidation after a successful post still reports success
      to `onFinally`, right after an apology alert. */
  method RevalidationFailure(params: CampaignService.Params) returns (steps: seq<Step>)
    requires params.onFinally.Some?
    ensures |steps| == 4
    ensures steps[1..] == [Revalidated("/auto-campaign/all"), AlertShown(ApologyMessage), FinallyCalled(true)]
  {
    var escapes;
    steps, escapes := UpdateCampaignActiveStatus(params, None, Some(OtherError));
  }

  /** A network failure (an `AxiosError` with no response) skips the alert
      and escapes, yet `onFinally(false)` still runs. */
  method NetworkFailure(params: CampaignService.Params) returns (steps: seq<Step>, escapes: bool)
    requires params.onFinally.Some?
    ensures escapes
    ensures |steps| == 2 && steps[1] == FinallyCalled(false)
  {
    steps, escapes := UpdateCampaignActiveStatus(params, Some(AxiosRejection(NetworkError)), None);
  }
}
