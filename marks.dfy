/**
 * The emoji the bot's replies start with, as the characters their UTF-8
 * bytes read as in the encoding the source file was saved in (Mac Roman):
 * that is the text the bot actually sends.
 */
module Marks {
  const ErrorMark: string := "\U{201A}\U{00F9}\U{00E5}"
  const HourglassMark: string := "\U{201A}\U{00E8}\U{2265}"
  const OmMark: string := "\U{F8FF}\U{00FC}\U{00EF}\U{00E2}\U{00D4}\U{220F}\U{00E8}"
  const MoonMark: string := "\U{F8FF}\U{00FC}\U{00E5}\U{00F4}"
  const StarMark: string := "\U{201A}\U{2260}\U{00EA}"
  const YogaMark: string := "\U{F8FF}\U{00FC}\U{00DF}\U{00F2}"
}
