/** The `{{...}}` placeholders the prompt and report templates hold, and the
    text the stages put in their place. */
module Placeholders {
  const BrandPlaceholder: string := "{{BRAND_NAME}}"
  const TopicPlaceholder: string := "{{TOPIC_NAME}}"
  const MetadataPlaceholder: string := "{{VIDEO_METADATA}}"
  const CommentsPlaceholder: string := "{{COMMENTS_DATA}}"
  const AudioListPlaceholder: string := "{{AUDIO_FILES_LIST}}"
  const MediaListPlaceholder: string := "{{MEDIA_FILES_LIST}}"
  const SummariesPlaceholder: string := "{{BATCH_SUMMARIES}}"
  const TotalVideosPlaceholder: string := "{{TOTAL_VIDEOS}}"
  const TotalViewsPlaceholder: string := "{{TOTAL_VIEWS}}"
  const TotalLikesPlaceholder: string := "{{TOTAL_LIKES}}"
  const TotalCommentsPlaceholder: string := "{{TOTAL_COMMENTS_STATS}}"
  const TotalEngagementPlaceholder: string := "{{TOTAL_ENGAGEMENT}}"
  const TotalExtractedPlaceholder: string := "{{TOTAL_COMMENTS_EXTRACTED}}"
  const ContentPlaceholder: string := "{{ANALYSIS_CONTENT}}"
}
