/** What a knowledge node shows: its title, a short preview of its content,
    and the colours, shadow and label that follow its understanding level. */
module CustomNode {
  import opened Wrappers
  import opened KnowledgeMapTypes

  const PreviewLimit: nat := 50
  const Ellipsis: string := "..."
  const UntitledText: string := "无标题"
  const EmptyContentText: string := "空白内容..."

  /** The truncation of `getTextPreview`, on text already extracted from the
      content's markup: text over the limit keeps its first 50 characters and
      gains an ellipsis; shorter text is shown whole. */
  function TextPreview(text: string): (r: string)
    ensures |text| <= PreviewLimit ==> r == text
    ensures |text| > PreviewLimit ==> |r| == PreviewLimit + |Ellipsis| && r[..PreviewLimit] == text[..PreviewLimit] && r[PreviewLimit..] == Ellipsis
    ensures |r| <= PreviewLimit + |Ellipsis|
  {
    if |text| > PreviewLimit then text[..PreviewLimit] + Ellipsis else text
  }

  /** The preview is a prefix of the text, followed by the ellipsis exactly
      when something was cut. */
  lemma TextPreviewIsPrefix(text: string)
    ensures var r := TextPreview(text);
      || (r == text && |text| <= PreviewLimit)
      || (exists n :: 0 <= n < |text| && r == text[..n] + Ellipsis)
  {
    if |text| > PreviewLimit {
      assert TextPreview(text) == text[..PreviewLimit] + Ellipsis;
    }
  }

  /** The title line: a missing or empty label shows the placeholder title. */
  function TitleText(labelText: Option<string>): (r: string)
    ensures labelText.None? || labelText == Some("") ==> r == UntitledText
    ensures labelText.Some? && labelText.value != "" ==> r == labelText.value
  {
    if labelText.Some? && labelText.value != "" then labelText.value else UntitledText
  }

  /** The content line, with the markup-to-text extraction as a parameter:
      missing or empty content shows the placeholder. */
  function ContentText(content: Option<string>, extractText: string -> string): (r: string)
    ensures content.None? || content == Some("") ==> r == EmptyContentText
    ensures content.Some? && content.value != "" ==> r == TextPreview(extractText(content.value))
  {
    if content.Some? && content.value != "" then TextPreview(extractText(content.value)) else EmptyContentText
  }

  /** `data.understandingLevel || UnderstandingLevel.NotStarted`: a missing
      level and the falsy level 0 both give `NotStarted`. */
  function EffectiveLevel(level: Option<int>): (r: int)
    ensures level.None? ==> r == NotStarted
    ensures level.Some? ==> r == level.value
  {
    if level.None? || level.value == 0 then NotStarted else level.value
  }

  function NodeStyle(level: Option<int>): string {
    var l := EffectiveLevel(level);
    if l == NotStarted then "bg-gray-100 border-gray-300 text-gray-900"
    else if l == Basic then "bg-blue-50 border-blue-200 text-blue-900"
    else if l == Intermediate then "bg-amber-50 border-amber-200 text-amber-900"
    else if l == Advanced then "bg-orange-50 border-orange-200 text-orange-900"
    else if l == Mastered then "bg-emerald-50 border-emerald-200 text-emerald-900"
    else "bg-gray-100 border-gray-300 text-gray-900"
  }

  function IndicatorStyle(level: Option<int>): string {
    var l := EffectiveLevel(level);
    if l == NotStarted then "bg-gray-400"
    else if l == Basic then "bg-blue-400"
    else if l == Intermediate then "bg-amber-400"
    else if l == Advanced then "bg-orange-400"
    else if l == Mastered then "bg-emerald-400"
    else "bg-gray-400"
  }

  function UnderstandingLabel(level: Option<int>): string {
    var l := EffectiveLevel(level);
    if l == NotStarted then "未开始"
    else if l == Basic then "基础理解"
    else if l == Intermediate then "中等理解"
    else if l == Advanced then "高级理解"
    else if l == Mastered then "已精通"
    else "未开始"
  }

  function NodeShadow(level: Option<int>): string {
    var l := EffectiveLevel(level);
    if l == NotStarted then "rgba(0, 0, 0, 0.1)"
    else if l == Basic then "rgba(59, 130, 246, 0.15)"
    else if l == Intermediate then "rgba(245, 158, 11, 0.15)"
    else if l == Advanced then "rgba(249, 115, 22, 0.15)"
    else if l == Mastered then "rgba(16, 185, 129, 0.15)"
    else "rgba(0, 0, 0, 0.1)"
  }

  /** The five levels' entries, from `NotStarted` to `Mastered`. */
  const NodeStyles: seq<string> := [
    "bg-gray-100 border-gray-300 text-gray-900", "bg-blue-50 border-blue-200 text-blue-900",
    "bg-amber-50 border-amber-200 text-amber-900", "bg-orange-50 border-orange-200 text-orange-900",
    "bg-emerald-50 border-emerald-200 text-emerald-900"]
  const IndicatorStyles: seq<string> := ["bg-gray-400", "bg-blue-400", "bg-amber-400", "bg-orange-400", "bg-emerald-400"]
  const UnderstandingLabels: seq<string> := ["未开始", "基础理解", "中等理解", "高级理解", "已精通"]
  const NodeShadows: seq<string> := [
    "rgba(0, 0, 0, 0.1)", "rgba(59, 130, 246, 0.15)", "rgba(245, 158, 11, 0.15)",
    "rgba(249, 115, 22, 0.15)", "rgba(16, 185, 129, 0.15)"]

  /** The row of the tables a level selects: its own for 1 to 4, and the
      `NotStarted` row for a missing, falsy or unknown level. */
  function LevelRow(level: Option<int>): (k: nat)
    ensures k < 5
    ensures level.Some? && 1 <= level.value <= 4 ==> k == level.value
    ensures !(level.Some? && 1 <= level.value <= 4) ==> k == 0
  {
    if level.Some? && 1 <= level.value <= 4 then level.value else 0
  }

  /** Every mapping is total and agrees with its table at the selected row,
      so the default case of each is its `NotStarted` case. */
  lemma MappingsFollowTables(level: Option<int>)
    ensures NodeStyle(level) == NodeStyles[LevelRow(level)]
    ensures IndicatorStyle(level) == IndicatorStyles[LevelRow(level)]
    ensures UnderstandingLabel(level) == UnderstandingLabels[LevelRow(level)]
    ensures NodeShadow(level) == NodeShadows[LevelRow(level)]
  {
  }

  /** A missing level, level 0 and any level outside 0 to 4 look exactly
      like `NotStarted`. */
  lemma UnknownLevelLooksNotStarted(level: Option<int>)
    requires level.None? || !(1 <= level.value <= 4)
    ensures NodeStyle(level) == NodeStyle(Some(NotStarted))
    ensures IndicatorStyle(level) == IndicatorStyle(Some(NotStarted))
    ensures UnderstandingLabel(level) == UnderstandingLabel(Some(NotStarted))
    ensures NodeShadow(level) == NodeShadow(Some(NotStarted))
  {
    MappingsFollowTables(level);
    MappingsFollowTables(Some(NotStarted));
  }

  /** The five levels have five different labels, so the label tells the
      level apart. */
  lemma UnderstandingLabelsDistinct(a: int, b: int)
    requires 0 <= a <= 4 && 0 <= b <= 4 && a != b
    ensures UnderstandingLabel(Some(a)) != UnderstandingLabel(Some(b))
  {
    MappingsFollowTables(Some(a));
    MappingsFollowTables(Some(b));
    assert UnderstandingLabels[a][0] != UnderstandingLabels[b][0];
  }
}
