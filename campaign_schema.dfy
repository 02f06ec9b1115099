/** `CreateAutoCampaignTagSchema` and `InactiveAutoCampaignSchema` of
    week2/refactoring/apis/campaign/auto-campaign-schemas.ts. */
module CampaignSchema {
  import opened Zod

  /** `CreateAutoCampaignTagDto` */
  datatype TagDto = TagDto(name: string)

  /** `InactiveAutoCampaignDto` */
  datatype InactiveDto = InactiveDto(autoCampaignId: string)

  const NameRequired := "Name is required"
  const NameTooLong := "태그 이름은 최대 100자까지 입력 가능합니다."

  /** The name checks, `min(1)` then `max(100)`. */
  function TagIssues(dto: TagDto): (r: seq<Issue>)
    ensures r == [] <==> 1 <= |dto.name| <= 100
    ensures dto.name == "" ==> r == [Issue(["name"], NameRequired)]
    ensures |dto.name| > 100 ==> r == [Issue(["name"], NameTooLong)]
  {
    Check(|dto.name| >= 1, "name", NameRequired) + Check(|dto.name| <= 100, "name", NameTooLong)
  }

  /** `CreateAutoCampaignTagSchema.parse(dto)`: the dto comes back unchanged
      exactly when its name has 1 to 100 characters. */
  function ParseTag(dto: TagDto): (r: Parsed<TagDto>)
    ensures r.Parsed? <==> 1 <= |dto.name| <= 100
    ensures r.Parsed? ==> r.value == dto
    ensures r.ZodError? ==> r.issues != [] && forall i :: 0 <= i < |r.issues| ==> r.issues[i].path == ["name"]
  {
    Parse(dto, TagIssues(dto))
  }

  /** `z.object({ autoCampaignId: z.string() })` puts no bound on the id. */
  function InactiveIssues(dto: InactiveDto): (r: seq<Issue>)
    ensures r == []
  {
    []
  }

  /** Any string id parses, the empty one included. */
  lemma AnyIdAccepted(id: string)
    ensures Parse(InactiveDto(id), InactiveIssues(InactiveDto(id))) == Parsed(InactiveDto(id))
  {
  }
}
