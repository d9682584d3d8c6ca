/**
 * Which of the classification's phrases the service's fixed messages
 * contain, once lower-cased.  Each message is cut into four pieces that are
 * lower-cased one at a time; a phrase is then shown absent by one of its
 * characters, or one pair of its adjacent characters, that the message
 * lacks, and present by the piece it occurs in.
 */
module Phrases {
  import opened Text

  lemma TimedOutSplit()
    ensures "Request timed out - please try again" == "Request t" + "imed out " + "- please " + "try again"
  {
  }

  lemma TimedOutChunksLower()
    ensures Lower("Request t") == "request t" && Lower("imed out ") == "imed out "
    ensures Lower("- please ") == "- please " && Lower("try again") == "try again"
  {
  }

  lemma TimedOutLower()
    ensures Lower("Request timed out - please try again") == "request t" + "imed out " + "- please " + "try again"
  {
    TimedOutSplit();
    TimedOutChunksLower();
    Lower4("Request t", "imed out ", "- please ", "try again");
  }

  lemma TimedOutLacksNotConfigured()
    ensures !Contains("request t" + "imed out " + "- please " + "try again", "not configured")
  {
    AbsentChar4("request t", "imed out ", "- please ", "try again", "not configured", 4);
  }

  lemma TimedOutLacksAuthentication()
    ensures !Contains("request t" + "imed out " + "- please " + "try again", "authentication")
  {
    AbsentChar4("request t", "imed out ", "- please ", "try again", "authentication", 3);
  }

  lemma TimedOutLacksApiKey()
    ensures !Contains("request t" + "imed out " + "- please " + "try again", "api key")
  {
    AbsentChar4("request t", "imed out ", "- please ", "try again", "api key", 4);
  }

  lemma TimedOutLacksJson()
    ensures !Contains("request t" + "imed out " + "- please " + "try again", "json")
  {
    AbsentChar4("request t", "imed out ", "- please ", "try again", "json", 0);
  }

  lemma TimedOutLacksTimeout()
    ensures !Contains("request t" + "imed out " + "- please " + "try again", "timeout")
  {
    NoPair4("request t", "imed out ", "- please ", "try again", 'e', 'o');
    AbsentPair("request t" + "imed out " + "- please " + "try again", "timeout", 3);
  }

  lemma TimedOutLacksRateLimit()
    ensures !Contains("request t" + "imed out " + "- please " + "try again", "rate limit")
  {
    NoPair4("request t", "imed out ", "- please ", "try again", 'r', 'a');
    AbsentPair("request t" + "imed out " + "- please " + "try again", "rate limit", 0);
  }

  lemma TimedOutPhrases()
    ensures !Contains(Lower("Request timed out - please try again"), "not configured")
    ensures !Contains(Lower("Request timed out - please try again"), "authentication")
    ensures !Contains(Lower("Request timed out - please try again"), "api key")
    ensures !Contains(Lower("Request timed out - please try again"), "timeout")
    ensures !Contains(Lower("Request timed out - please try again"), "rate limit")
    ensures !Contains(Lower("Request timed out - please try again"), "json")
  {
    TimedOutLower();
    TimedOutLacksNotConfigured();
    TimedOutLacksAuthentication();
    TimedOutLacksApiKey();
    TimedOutLacksJson();
    TimedOutLacksTimeout();
    TimedOutLacksRateLimit();
  }

  lemma RateLimitSplit()
    ensures "Rate limit exceeded - please try again later" == "Rate limit " + "exceeded - " + "please try " + "again later"
  {
  }

  lemma RateLimitChunksLower()
    ensures Lower("Rate limit ") == "rate limit " && Lower("exceeded - ") == "exceeded - "
    ensures Lower("please try ") == "please try " && Lower("again later") == "again later"
  {
  }

  lemma RateLimitLower()
    ensures Lower("Rate limit exceeded - please try again later") == "rate limit " + "exceeded - " + "please try " + "again later"
  {
    RateLimitSplit();
    RateLimitChunksLower();
    Lower4("Rate limit ", "exceeded - ", "please try ", "again later");
  }

  lemma RateLimitLacksNotConfigured()
    ensures !Contains("rate limit " + "exceeded - " + "please try " + "again later", "not configured")
  {
    AbsentChar4("rate limit ", "exceeded - ", "please try ", "again later", "not configured", 1);
  }

  lemma RateLimitLacksAuthentication()
    ensures !Contains("rate limit " + "exceeded - " + "please try " + "again later", "authentication")
  {
    AbsentChar4("rate limit ", "exceeded - ", "please try ", "again later", "authentication", 1);
  }

  lemma RateLimitLacksApiKey()
    ensures !Contains("rate limit " + "exceeded - " + "please try " + "again later", "api key")
  {
    AbsentChar4("rate limit ", "exceeded - ", "please try ", "again later", "api key", 4);
  }

  lemma RateLimitLacksTimeout()
    ensures !Contains("rate limit " + "exceeded - " + "please try " + "again later", "timeout")
  {
    AbsentChar4("rate limit ", "exceeded - ", "please try ", "again later", "timeout", 4);
  }

  lemma RateLimitPhrases()
    ensures !Contains(Lower("Rate limit exceeded - please try again later"), "not configured")
    ensures !Contains(Lower("Rate limit exceeded - please try again later"), "authentication")
    ensures !Contains(Lower("Rate limit exceeded - please try again later"), "api key")
    ensures !Contains(Lower("Rate limit exceeded - please try again later"), "timeout")
    ensures Contains(Lower("Rate limit exceeded - please try again later"), "rate limit")
  {
    RateLimitLower();
    RateLimitLacksNotConfigured();
    RateLimitLacksAuthentication();
    RateLimitLacksApiKey();
    RateLimitLacksTimeout();
    Witness("rate limit ", "rate limit", 0);
    Contains4("rate limit ", "exceeded - ", "please try ", "again later", "rate limit");
  }

  lemma AuthenticationSplit()
    ensures "Authentication failed - check API key" == "Authentication" + " fail" + "ed - chec" + "k API key"
  {
  }

  lemma AuthenticationChunksLower()
    ensures Lower("Authentication") == "authentication" && Lower(" fail") == " fail"
    ensures Lower("ed - chec") == "ed - chec" && Lower("k API key") == "k api key"
  {
  }

  lemma AuthenticationLower()
    ensures Lower("Authentication failed - check API key") == "authentication" + " fail" + "ed - chec" + "k api key"
  {
    AuthenticationSplit();
    AuthenticationChunksLower();
    Lower4("Authentication", " fail", "ed - chec", "k API key");
  }

  lemma AuthenticationLacksNotConfigured()
    ensures !Contains("authentication" + " fail" + "ed - chec" + "k api key", "not configured")
  {
    AbsentChar4("authentication", " fail", "ed - chec", "k api key", "not configured", 9);
  }

  lemma AuthenticationPhrases()
    ensures !Contains(Lower("Authentication failed - check API key"), "not configured")
    ensures Contains(Lower("Authentication failed - check API key"), "authentication")
  {
    AuthenticationLower();
    AuthenticationLacksNotConfigured();
    Witness("authentication", "authentication", 0);
    Contains4("authentication", " fail", "ed - chec", "k api key", "authentication");
  }

  lemma ServiceErrorPrefixSplit()
    ensures "LLM service error: " == "LLM s" + "ervic" + "e err" + "or: "
  {
  }

  lemma ServiceErrorPrefixChunksLower()
    ensures Lower("LLM s") == "llm s" && Lower("ervic") == "ervic"
    ensures Lower("e err") == "e err" && Lower("or: ") == "or: "
  {
  }

  lemma ServiceErrorPrefixLower()
    ensures Lower("LLM service error: ") == "llm s" + "ervic" + "e err" + "or: "
  {
    ServiceErrorPrefixSplit();
    ServiceErrorPrefixChunksLower();
    Lower4("LLM s", "ervic", "e err", "or: ");
  }

  lemma ServiceErrorPrefixLacksNotConfigured()
    ensures !Contains("llm s" + "ervic" + "e err" + "or: ", "not configured")
  {
    AbsentChar4("llm s", "ervic", "e err", "or: ", "not configured", 0);
  }

  lemma ServiceErrorPrefixLacksAuthentication()
    ensures !Contains("llm s" + "ervic" + "e err" + "or: ", "authentication")
  {
    AbsentChar4("llm s", "ervic", "e err", "or: ", "authentication", 0);
  }

  lemma ServiceErrorPrefixLacksApiKey()
    ensures !Contains("llm s" + "ervic" + "e err" + "or: ", "api key")
  {
    AbsentChar4("llm s", "ervic", "e err", "or: ", "api key", 0);
  }

  lemma ServiceErrorPrefixLacksTimeout()
    ensures !Contains("llm s" + "ervic" + "e err" + "or: ", "timeout")
  {
    AbsentChar4("llm s", "ervic", "e err", "or: ", "timeout", 0);
  }

  lemma ServiceErrorPrefixLacksRateLimit()
    ensures !Contains("llm s" + "ervic" + "e err" + "or: ", "rate limit")
  {
    AbsentChar4("llm s", "ervic", "e err", "or: ", "rate limit", 1);
  }

  lemma ServiceErrorPrefixLacksJson()
    ensures !Contains("llm s" + "ervic" + "e err" + "or: ", "json")
  {
    AbsentChar4("llm s", "ervic", "e err", "or: ", "json", 0);
  }

  lemma ServiceErrorPrefixPhrases()
    ensures !Contains(Lower("LLM service error: "), "not configured")
    ensures !Contains(Lower("LLM service error: "), "authentication")
    ensures !Contains(Lower("LLM service error: "), "api key")
    ensures !Contains(Lower("LLM service error: "), "timeout")
    ensures !Contains(Lower("LLM service error: "), "rate limit")
    ensures !Contains(Lower("LLM service error: "), "json")
  {
    ServiceErrorPrefixLower();
    ServiceErrorPrefixLacksNotConfigured();
    ServiceErrorPrefixLacksAuthentication();
    ServiceErrorPrefixLacksApiKey();
    ServiceErrorPrefixLacksTimeout();
    ServiceErrorPrefixLacksRateLimit();
    ServiceErrorPrefixLacksJson();
  }

  lemma UnexpectedPrefixSplit()
    ensures "Failed to get recommendations: " == "Failed t" + "o get re" + "commenda" + "tions: "
  {
  }

  lemma UnexpectedPrefixChunksLower()
    ensures Lower("Failed t") == "failed t" && Lower("o get re") == "o get re"
    ensures Lower("commenda") == "commenda" && Lower("tions: ") == "tions: "
  {
  }

  lemma UnexpectedPrefixLower()
    ensures Lower("Failed to get recommendations: ") == "failed t" + "o get re" + "commenda" + "tions: "
  {
    UnexpectedPrefixSplit();
    UnexpectedPrefixChunksLower();
    Lower4("Failed t", "o get re", "commenda", "tions: ");
  }

  lemma UnexpectedPrefixLacksNotConfigured()
    ensures !Contains("failed t" + "o get re" + "commenda" + "tions: ", "not configured")
  {
    AbsentChar4("failed t", "o get re", "commenda", "tions: ", "not configured", 10);
  }

  lemma UnexpectedPrefixLacksAuthentication()
    ensures !Contains("failed t" + "o get re" + "commenda" + "tions: ", "authentication")
  {
    AbsentChar4("failed t", "o get re", "commenda", "tions: ", "authentication", 1);
  }

  lemma UnexpectedPrefixLacksApiKey()
    ensures !Contains("failed t" + "o get re" + "commenda" + "tions: ", "api key")
  {
    AbsentChar4("failed t", "o get re", "commenda", "tions: ", "api key", 1);
  }

  lemma UnexpectedPrefixLacksTimeout()
    ensures !Contains("failed t" + "o get re" + "commenda" + "tions: ", "timeout")
  {
    AbsentChar4("failed t", "o get re", "commenda", "tions: ", "timeout", 5);
  }

  lemma UnexpectedPrefixLacksJson()
    ensures !Contains("failed t" + "o get re" + "commenda" + "tions: ", "json")
  {
    AbsentChar4("failed t", "o get re", "commenda", "tions: ", "json", 0);
  }

  lemma UnexpectedPrefixLacksRateLimit()
    ensures !Contains("failed t" + "o get re" + "commenda" + "tions: ", "rate limit")
  {
    NoPair4("failed t", "o get re", "commenda", "tions: ", 'r', 'a');
    AbsentPair("failed t" + "o get re" + "commenda" + "tions: ", "rate limit", 0);
  }

  lemma UnexpectedPrefixPhrases()
    ensures !Contains(Lower("Failed to get recommendations: "), "not configured")
    ensures !Contains(Lower("Failed to get recommendations: "), "authentication")
    ensures !Contains(Lower("Failed to get recommendations: "), "api key")
    ensures !Contains(Lower("Failed to get recommendations: "), "timeout")
    ensures !Contains(Lower("Failed to get recommendations: "), "rate limit")
    ensures !Contains(Lower("Failed to get recommendations: "), "json")
  {
    UnexpectedPrefixLower();
    UnexpectedPrefixLacksNotConfigured();
    UnexpectedPrefixLacksAuthentication();
    UnexpectedPrefixLacksApiKey();
    UnexpectedPrefixLacksTimeout();
    UnexpectedPrefixLacksJson();
    UnexpectedPrefixLacksRateLimit();
  }

  lemma InvalidJsonPrefixSplit()
    ensures "Invalid JSON response from LLM: " == "Invalid " + "JSON res" + "ponse fr" + "om LLM: "
  {
  }

  lemma InvalidJsonPrefixChunksLower()
    ensures Lower("Invalid ") == "invalid " && Lower("JSON res") == "json res"
    ensures Lower("ponse fr") == "ponse fr" && Lower("om LLM: ") == "om llm: "
  {
  }

  lemma InvalidJsonPrefixLower()
    ensures Lower("Invalid JSON response from LLM: ") == "invalid " + "json res" + "ponse fr" + "om llm: "
  {
    InvalidJsonPrefixSplit();
    InvalidJsonPrefixChunksLower();
    Lower4("Invalid ", "JSON res", "ponse fr", "om LLM: ");
  }

  lemma InvalidJsonPrefixLacksNotConfigured()
    ensures !Contains("invalid " + "json res" + "ponse fr" + "om llm: ", "not configured")
  {
    AbsentChar4("invalid ", "json res", "ponse fr", "om llm: ", "not configured", 2);
  }

  lemma InvalidJsonPrefixLacksAuthentication()
    ensures !Contains("invalid " + "json res" + "ponse fr" + "om llm: ", "authentication")
  {
    AbsentChar4("invalid ", "json res", "ponse fr", "om llm: ", "authentication", 1);
  }

  lemma InvalidJsonPrefixLacksApiKey()
    ensures !Contains("invalid " + "json res" + "ponse fr" + "om llm: ", "api key")
  {
    AbsentChar4("invalid ", "json res", "ponse fr", "om llm: ", "api key", 4);
  }

  lemma InvalidJsonPrefixLacksTimeout()
    ensures !Contains("invalid " + "json res" + "ponse fr" + "om llm: ", "timeout")
  {
    AbsentChar4("invalid ", "json res", "ponse fr", "om llm: ", "timeout", 0);
  }

  lemma InvalidJsonPrefixLacksRateLimit()
    ensures !Contains("invalid " + "json res" + "ponse fr" + "om llm: ", "rate limit")
  {
    AbsentChar4("invalid ", "json res", "ponse fr", "om llm: ", "rate limit", 2);
  }

  lemma InvalidJsonPrefixPhrases()
    ensures !Contains(Lower("Invalid JSON response from LLM: "), "not configured")
    ensures !Contains(Lower("Invalid JSON response from LLM: "), "authentication")
    ensures !Contains(Lower("Invalid JSON response from LLM: "), "api key")
    ensures !Contains(Lower("Invalid JSON response from LLM: "), "timeout")
    ensures !Contains(Lower("Invalid JSON response from LLM: "), "rate limit")
    ensures Contains(Lower("Invalid JSON response from LLM: "), "invalid")
    ensures Contains(Lower("Invalid JSON response from LLM: "), "json")
  {
    InvalidJsonPrefixLower();
    InvalidJsonPrefixLacksNotConfigured();
    InvalidJsonPrefixLacksAuthentication();
    InvalidJsonPrefixLacksApiKey();
    InvalidJsonPrefixLacksTimeout();
    InvalidJsonPrefixLacksRateLimit();
    Witness("invalid ", "invalid", 0);
    Contains4("invalid ", "json res", "ponse fr", "om llm: ", "invalid");
    Witness("json res", "json", 0);
    Contains4("invalid ", "json res", "ponse fr", "om llm: ", "json");
  }

  lemma InvalidFormatPrefixSplit()
    ensures "Invalid response format from LLM: " == "Invalid r" + "esponse " + "format fr" + "om LLM: "
  {
  }

  lemma InvalidFormatPrefixChunksLower()
    ensures Lower("Invalid r") == "invalid r" && Lower("esponse ") == "esponse "
    ensures Lower("format fr") == "format fr" && Lower("om LLM: ") == "om llm: "
  {
  }

  lemma InvalidFormatPrefixLower()
    ensures Lower("Invalid response format from LLM: ") == "invalid r" + "esponse " + "format fr" + "om llm: "
  {
    InvalidFormatPrefixSplit();
    InvalidFormatPrefixChunksLower();
    Lower4("Invalid r", "esponse ", "format fr", "om LLM: ");
  }

  lemma InvalidFormatPrefixLacksNotConfigured()
    ensures !Contains("invalid r" + "esponse " + "format fr" + "om llm: ", "not configured")
  {
    AbsentChar4("invalid r", "esponse ", "format fr", "om llm: ", "not configured", 4);
  }

  lemma InvalidFormatPrefixLacksAuthentication()
    ensures !Contains("invalid r" + "esponse " + "format fr" + "om llm: ", "authentication")
  {
    AbsentChar4("invalid r", "esponse ", "format fr", "om llm: ", "authentication", 1);
  }

  lemma InvalidFormatPrefixLacksApiKey()
    ensures !Contains("invalid r" + "esponse " + "format fr" + "om llm: ", "api key")
  {
    AbsentChar4("invalid r", "esponse ", "format fr", "om llm: ", "api key", 4);
  }

  lemma InvalidFormatPrefixLacksTimeout()
    ensures !Contains("invalid r" + "esponse " + "format fr" + "om llm: ", "timeout")
  {
    AbsentChar4("invalid r", "esponse ", "format fr", "om llm: ", "timeout", 5);
  }

  lemma InvalidFormatPrefixLacksJson()
    ensures !Contains("invalid r" + "esponse " + "format fr" + "om llm: ", "json")
  {
    AbsentChar4("invalid r", "esponse ", "format fr", "om llm: ", "json", 0);
  }

  lemma InvalidFormatPrefixLacksRateLimit()
    ensures !Contains("invalid r" + "esponse " + "format fr" + "om llm: ", "rate limit")
  {
    NoPair4("invalid r", "esponse ", "format fr", "om llm: ", 'r', 'a');
    AbsentPair("invalid r" + "esponse " + "format fr" + "om llm: ", "rate limit", 0);
  }

  lemma InvalidFormatPrefixPhrases()
    ensures !Contains(Lower("Invalid response format from LLM: "), "not configured")
    ensures !Contains(Lower("Invalid response format from LLM: "), "authentication")
    ensures !Contains(Lower("Invalid response format from LLM: "), "api key")
    ensures !Contains(Lower("Invalid response format from LLM: "), "timeout")
    ensures !Contains(Lower("Invalid response format from LLM: "), "rate limit")
    ensures !Contains(Lower("Invalid response format from LLM: "), "json")
    ensures Contains(Lower("Invalid response format from LLM: "), "invalid")
  {
    InvalidFormatPrefixLower();
    InvalidFormatPrefixLacksNotConfigured();
    InvalidFormatPrefixLacksAuthentication();
    InvalidFormatPrefixLacksApiKey();
    InvalidFormatPrefixLacksTimeout();
    InvalidFormatPrefixLacksJson();
    InvalidFormatPrefixLacksRateLimit();
    Witness("invalid r", "invalid", 0);
    Contains4("invalid r", "esponse ", "format fr", "om llm: ", "invalid");
  }

  lemma MissingPlantsSplit()
    ensures "Missing 'plants' field in LLM response" == "Missing 'p" + "lants' fi" + "eld in LLM" + " response"
  {
  }

  lemma MissingPlantsChunksLower()
    ensures Lower("Missing 'p") == "missing 'p" && Lower("lants' fi") == "lants' fi"
    ensures Lower("eld in LLM") == "eld in llm" && Lower(" response") == " response"
  {
  }

  lemma MissingPlantsLower()
    ensures Lower("Missing 'plants' field in LLM response") == "missing 'p" + "lants' fi" + "eld in llm" + " response"
  {
    MissingPlantsSplit();
    MissingPlantsChunksLower();
    Lower4("Missing 'p", "lants' fi", "eld in LLM", " response");
  }

  lemma MissingPlantsLacksNotConfigured()
    ensures !Contains("missing 'p" + "lants' fi" + "eld in llm" + " response", "not configured")
  {
    AbsentChar4("missing 'p", "lants' fi", "eld in llm", " response", "not configured", 4);
  }

  lemma MissingPlantsLacksAuthentication()
    ensures !Contains("missing 'p" + "lants' fi" + "eld in llm" + " response", "authentication")
  {
    AbsentChar4("missing 'p", "lants' fi", "eld in llm", " response", "authentication", 1);
  }

  lemma MissingPlantsLacksApiKey()
    ensures !Contains("missing 'p" + "lants' fi" + "eld in llm" + " response", "api key")
  {
    AbsentChar4("missing 'p", "lants' fi", "eld in llm", " response", "api key", 4);
  }

  lemma MissingPlantsLacksTimeout()
    ensures !Contains("missing 'p" + "lants' fi" + "eld in llm" + " response", "timeout")
  {
    AbsentChar4("missing 'p", "lants' fi", "eld in llm", " response", "timeout", 5);
  }

  lemma MissingPlantsLacksJson()
    ensures !Contains("missing 'p" + "lants' fi" + "eld in llm" + " response", "json")
  {
    AbsentChar4("missing 'p", "lants' fi", "eld in llm", " response", "json", 0);
  }

  lemma MissingPlantsLacksRateLimit()
    ensures !Contains("missing 'p" + "lants' fi" + "eld in llm" + " response", "rate limit")
  {
    NoPair4("missing 'p", "lants' fi", "eld in llm", " response", 'r', 'a');
    AbsentPair("missing 'p" + "lants' fi" + "eld in llm" + " response", "rate limit", 0);
  }

  lemma MissingPlantsPhrases()
    ensures !Contains(Lower("Missing 'plants' field in LLM response"), "not configured")
    ensures !Contains(Lower("Missing 'plants' field in LLM response"), "authentication")
    ensures !Contains(Lower("Missing 'plants' field in LLM response"), "api key")
    ensures !Contains(Lower("Missing 'plants' field in LLM response"), "timeout")
    ensures !Contains(Lower("Missing 'plants' field in LLM response"), "rate limit")
    ensures !Contains(Lower("Missing 'plants' field in LLM response"), "json")
  {
    MissingPlantsLower();
    MissingPlantsLacksNotConfigured();
    MissingPlantsLacksAuthentication();
    MissingPlantsLacksApiKey();
    MissingPlantsLacksTimeout();
    MissingPlantsLacksJson();
    MissingPlantsLacksRateLimit();
  }

  lemma NoValidPlantsSplit()
    ensures "No valid plants in LLM response" == "No valid" + " plants " + "in LLM r" + "esponse"
  {
  }

  lemma NoValidPlantsChunksLower()
    ensures Lower("No valid") == "no valid" && Lower(" plants ") == " plants "
    ensures Lower("in LLM r") == "in llm r" && Lower("esponse") == "esponse"
  {
  }

  lemma NoValidPlantsLower()
    ensures Lower("No valid plants in LLM response") == "no valid" + " plants " + "in llm r" + "esponse"
  {
    NoValidPlantsSplit();
    NoValidPlantsChunksLower();
    Lower4("No valid", " plants ", "in LLM r", "esponse");
  }

  lemma NoValidPlantsLacksNotConfigured()
    ensures !Contains("no valid" + " plants " + "in llm r" + "esponse", "not configured")
  {
    AbsentChar4("no valid", " plants ", "in llm r", "esponse", "not configured", 4);
  }

  lemma NoValidPlantsLacksAuthentication()
    ensures !Contains("no valid" + " plants " + "in llm r" + "esponse", "authentication")
  {
    AbsentChar4("no valid", " plants ", "in llm r", "esponse", "authentication", 1);
  }

  lemma NoValidPlantsLacksApiKey()
    ensures !Contains("no valid" + " plants " + "in llm r" + "esponse", "api key")
  {
    AbsentChar4("no valid", " plants ", "in llm r", "esponse", "api key", 4);
  }

  lemma NoValidPlantsLacksTimeout()
    ensures !Contains("no valid" + " plants " + "in llm r" + "esponse", "timeout")
  {
    AbsentChar4("no valid", " plants ", "in llm r", "esponse", "timeout", 5);
  }

  lemma NoValidPlantsLacksJson()
    ensures !Contains("no valid" + " plants " + "in llm r" + "esponse", "json")
  {
    AbsentChar4("no valid", " plants ", "in llm r", "esponse", "json", 0);
  }

  lemma NoValidPlantsLacksRateLimit()
    ensures !Contains("no valid" + " plants " + "in llm r" + "esponse", "rate limit")
  {
    NoPair4("no valid", " plants ", "in llm r", "esponse", 'r', 'a');
    AbsentPair("no valid" + " plants " + "in llm r" + "esponse", "rate limit", 0);
  }

  lemma NoValidPlantsPhrases()
    ensures !Contains(Lower("No valid plants in LLM response"), "not configured")
    ensures !Contains(Lower("No valid plants in LLM response"), "authentication")
    ensures !Contains(Lower("No valid plants in LLM response"), "api key")
    ensures !Contains(Lower("No valid plants in LLM response"), "timeout")
    ensures !Contains(Lower("No valid plants in LLM response"), "rate limit")
    ensures !Contains(Lower("No valid plants in LLM response"), "json")
  {
    NoValidPlantsLower();
    NoValidPlantsLacksNotConfigured();
    NoValidPlantsLacksAuthentication();
    NoValidPlantsLacksApiKey();
    NoValidPlantsLacksTimeout();
    NoValidPlantsLacksJson();
    NoValidPlantsLacksRateLimit();
  }

  lemma ParseFailurePrefixSplit()
    ensures "Failed to parse agent response: " == "Failed t" + "o parse " + "agent re" + "sponse: "
  {
  }

  lemma ParseFailurePrefixChunksLower()
    ensures Lower("Failed t") == "failed t" && Lower("o parse ") == "o parse "
    ensures Lower("agent re") == "agent re" && Lower("sponse: ") == "sponse: "
  {
  }

  lemma ParseFailurePrefixLower()
    ensures Lower("Failed to parse agent response: ") == "failed t" + "o parse " + "agent re" + "sponse: "
  {
    ParseFailurePrefixSplit();
    ParseFailurePrefixChunksLower();
    Lower4("Failed t", "o parse ", "agent re", "sponse: ");
  }

  lemma ParseFailurePrefixLacksNotConfigured()
    ensures !Contains("failed t" + "o parse " + "agent re" + "sponse: ", "not configured")
  {
    AbsentChar4("failed t", "o parse ", "agent re", "sponse: ", "not configured", 4);
  }

  lemma ParseFailurePrefixLacksAuthentication()
    ensures !Contains("failed t" + "o parse " + "agent re" + "sponse: ", "authentication")
  {
    AbsentChar4("failed t", "o parse ", "agent re", "sponse: ", "authentication", 1);
  }

  lemma ParseFailurePrefixLacksApiKey()
    ensures !Contains("failed t" + "o parse " + "agent re" + "sponse: ", "api key")
  {
    AbsentChar4("failed t", "o parse ", "agent re", "sponse: ", "api key", 4);
  }

  lemma ParseFailurePrefixLacksTimeout()
    ensures !Contains("failed t" + "o parse " + "agent re" + "sponse: ", "timeout")
  {
    AbsentChar4("failed t", "o parse ", "agent re", "sponse: ", "timeout", 2);
  }

  lemma ParseFailurePrefixLacksRateLimit()
    ensures !Contains("failed t" + "o parse " + "agent re" + "sponse: ", "rate limit")
  {
    AbsentChar4("failed t", "o parse ", "agent re", "sponse: ", "rate limit", 7);
  }

  lemma ParseFailurePrefixLacksJson()
    ensures !Contains("failed t" + "o parse " + "agent re" + "sponse: ", "json")
  {
    AbsentChar4("failed t", "o parse ", "agent re", "sponse: ", "json", 0);
  }

  lemma ParseFailurePrefixLacksInvalid()
    ensures !Contains("failed t" + "o parse " + "agent re" + "sponse: ", "invalid")
  {
    AbsentChar4("failed t", "o parse ", "agent re", "sponse: ", "invalid", 2);
  }

  lemma ParseFailurePrefixPhrases()
    ensures !Contains(Lower("Failed to parse agent response: "), "not configured")
    ensures !Contains(Lower("Failed to parse agent response: "), "authentication")
    ensures !Contains(Lower("Failed to parse agent response: "), "api key")
    ensures !Contains(Lower("Failed to parse agent response: "), "timeout")
    ensures !Contains(Lower("Failed to parse agent response: "), "rate limit")
    ensures !Contains(Lower("Failed to parse agent response: "), "json")
    ensures !Contains(Lower("Failed to parse agent response: "), "invalid")
  {
    ParseFailurePrefixLower();
    ParseFailurePrefixLacksNotConfigured();
    ParseFailurePrefixLacksAuthentication();
    ParseFailurePrefixLacksApiKey();
    ParseFailurePrefixLacksTimeout();
    ParseFailurePrefixLacksRateLimit();
    ParseFailurePrefixLacksJson();
    ParseFailurePrefixLacksInvalid();
  }

  lemma AgentMissingPlantsSplit()
    ensures "Missing 'plants' field in GenAI Agent response" == "Missing 'pla" + "nts' field " + "in GenAI Age" + "nt response"
  {
  }

  lemma AgentMissingPlantsChunksLower()
    ensures Lower("Missing 'pla") == "missing 'pla" && Lower("nts' field ") == "nts' field "
    ensures Lower("in GenAI Age") == "in genai age" && Lower("nt response") == "nt response"
  {
  }

  lemma AgentMissingPlantsLower()
    ensures Lower("Missing 'plants' field in GenAI Agent response") == "missing 'pla" + "nts' field " + "in genai age" + "nt response"
  {
    AgentMissingPlantsSplit();
    AgentMissingPlantsChunksLower();
    Lower4("Missing 'pla", "nts' field ", "in GenAI Age", "nt response");
  }

  lemma AgentMissingPlantsLacksNotConfigured()
    ensures !Contains("missing 'pla" + "nts' field " + "in genai age" + "nt response", "not configured")
  {
    AbsentChar4("missing 'pla", "nts' field ", "in genai age", "nt response", "not configured", 4);
  }

  lemma AgentMissingPlantsLacksAuthentication()
    ensures !Contains("missing 'pla" + "nts' field " + "in genai age" + "nt response", "authentication")
  {
    AbsentChar4("missing 'pla", "nts' field ", "in genai age", "nt response", "authentication", 1);
  }

  lemma AgentMissingPlantsLacksApiKey()
    ensures !Contains("missing 'pla" + "nts' field " + "in genai age" + "nt response", "api key")
  {
    AbsentChar4("missing 'pla", "nts' field ", "in genai age", "nt response", "api key", 4);
  }

  lemma AgentMissingPlantsLacksTimeout()
    ensures !Contains("missing 'pla" + "nts' field " + "in genai age" + "nt response", "timeout")
  {
    AbsentChar4("missing 'pla", "nts' field ", "in genai age", "nt response", "timeout", 5);
  }

  lemma AgentMissingPlantsLacksJson()
    ensures !Contains("missing 'pla" + "nts' field " + "in genai age" + "nt response", "json")
  {
    AbsentChar4("missing 'pla", "nts' field ", "in genai age", "nt response", "json", 0);
  }

  lemma AgentMissingPlantsLacksRateLimit()
    ensures !Contains("missing 'pla" + "nts' field " + "in genai age" + "nt response", "rate limit")
  {
    NoPair4("missing 'pla", "nts' field ", "in genai age", "nt response", 'r', 'a');
    AbsentPair("missing 'pla" + "nts' field " + "in genai age" + "nt response", "rate limit", 0);
  }

  lemma AgentMissingPlantsPhrases()
    ensures !Contains(Lower("Missing 'plants' field in GenAI Agent response"), "not configured")
    ensures !Contains(Lower("Missing 'plants' field in GenAI Agent response"), "authentication")
    ensures !Contains(Lower("Missing 'plants' field in GenAI Agent response"), "api key")
    ensures !Contains(Lower("Missing 'plants' field in GenAI Agent response"), "timeout")
    ensures !Contains(Lower("Missing 'plants' field in GenAI Agent response"), "rate limit")
    ensures !Contains(Lower("Missing 'plants' field in GenAI Agent response"), "json")
  {
    AgentMissingPlantsLower();
    AgentMissingPlantsLacksNotConfigured();
    AgentMissingPlantsLacksAuthentication();
    AgentMissingPlantsLacksApiKey();
    AgentMissingPlantsLacksTimeout();
    AgentMissingPlantsLacksJson();
    AgentMissingPlantsLacksRateLimit();
  }

  lemma AgentNoValidPlantsSplit()
    ensures "No valid plants in GenAI Agent response" == "No valid p" + "lants in G" + "enAI Agent" + " response"
  {
  }

  lemma AgentNoValidPlantsChunksLower()
    ensures Lower("No valid p") == "no valid p" && Lower("lants in G") == "lants in g"
    ensures Lower("enAI Agent") == "enai agent" && Lower(" response") == " response"
  {
  }

  lemma AgentNoValidPlantsLower()
    ensures Lower("No valid plants in GenAI Agent response") == "no valid p" + "lants in g" + "enai agent" + " response"
  {
    AgentNoValidPlantsSplit();
    AgentNoValidPlantsChunksLower();
    Lower4("No valid p", "lants in G", "enAI Agent", " response");
  }

  lemma AgentNoValidPlantsLacksNotConfigured()
    ensures !Contains("no valid p" + "lants in g" + "enai agent" + " response", "not configured")
  {
    AbsentChar4("no valid p", "lants in g", "enai agent", " response", "not configured", 4);
  }

  lemma AgentNoValidPlantsLacksAuthentication()
    ensures !Contains("no valid p" + "lants in g" + "enai agent" + " response", "authentication")
  {
    AbsentChar4("no valid p", "lants in g", "enai agent", " response", "authentication", 1);
  }

  lemma AgentNoValidPlantsLacksApiKey()
    ensures !Contains("no valid p" + "lants in g" + "enai agent" + " response", "api key")
  {
    AbsentChar4("no valid p", "lants in g", "enai agent", " response", "api key", 4);
  }

  lemma AgentNoValidPlantsLacksTimeout()
    ensures !Contains("no valid p" + "lants in g" + "enai agent" + " response", "timeout")
  {
    AbsentChar4("no valid p", "lants in g", "enai agent", " response", "timeout", 2);
  }

  lemma AgentNoValidPlantsLacksRateLimit()
    ensures !Contains("no valid p" + "lants in g" + "enai agent" + " response", "rate limit")
  {
    AbsentChar4("no valid p", "lants in g", "enai agent", " response", "rate limit", 7);
  }

  lemma AgentNoValidPlantsLacksJson()
    ensures !Contains("no valid p" + "lants in g" + "enai agent" + " response", "json")
  {
    AbsentChar4("no valid p", "lants in g", "enai agent", " response", "json", 0);
  }

  lemma AgentNoValidPlantsPhrases()
    ensures !Contains(Lower("No valid plants in GenAI Agent response"), "not configured")
    ensures !Contains(Lower("No valid plants in GenAI Agent response"), "authentication")
    ensures !Contains(Lower("No valid plants in GenAI Agent response"), "api key")
    ensures !Contains(Lower("No valid plants in GenAI Agent response"), "timeout")
    ensures !Contains(Lower("No valid plants in GenAI Agent response"), "rate limit")
    ensures !Contains(Lower("No valid plants in GenAI Agent response"), "json")
  {
    AgentNoValidPlantsLower();
    AgentNoValidPlantsLacksNotConfigured();
    AgentNoValidPlantsLacksAuthentication();
    AgentNoValidPlantsLacksApiKey();
    AgentNoValidPlantsLacksTimeout();
    AgentNoValidPlantsLacksRateLimit();
    AgentNoValidPlantsLacksJson();
  }

  lemma NoJsonFoundSplit()
    ensures "Could not extract JSON from agent response" == "Could not e" + "xtract JSON" + " from agen" + "t response"
  {
  }

  lemma NoJsonFoundChunksLower()
    ensures Lower("Could not e") == "could not e" && Lower("xtract JSON") == "xtract json"
    ensures Lower(" from agen") == " from agen" && Lower("t response") == "t response"
  {
  }

  lemma NoJsonFoundLower()
    ensures Lower("Could not extract JSON from agent response") == "could not e" + "xtract json" + " from agen" + "t response"
  {
    NoJsonFoundSplit();
    NoJsonFoundChunksLower();
    Lower4("Could not e", "xtract JSON", " from agen", "t response");
  }

  lemma NoJsonFoundLacksNotConfigured()
    ensures !Contains("could not e" + "xtract json" + " from agen" + "t response", "not configured")
  {
    AbsentChar4("could not e", "xtract json", " from agen", "t response", "not configured", 8);
  }

  lemma NoJsonFoundLacksAuthentication()
    ensures !Contains("could not e" + "xtract json" + " from agen" + "t response", "authentication")
  {
    AbsentChar4("could not e", "xtract json", " from agen", "t response", "authentication", 3);
  }

  lemma NoJsonFoundLacksApiKey()
    ensures !Contains("could not e" + "xtract json" + " from agen" + "t response", "api key")
  {
    AbsentChar4("could not e", "xtract json", " from agen", "t response", "api key", 2);
  }

  lemma NoJsonFoundLacksTimeout()
    ensures !Contains("could not e" + "xtract json" + " from agen" + "t response", "timeout")
  {
    AbsentChar4("could not e", "xtract json", " from agen", "t response", "timeout", 1);
  }

  lemma NoJsonFoundLacksRateLimit()
    ensures !Contains("could not e" + "xtract json" + " from agen" + "t response", "rate limit")
  {
    AbsentChar4("could not e", "xtract json", " from agen", "t response", "rate limit", 6);
  }

  lemma NoJsonFoundLacksInvalid()
    ensures !Contains("could not e" + "xtract json" + " from agen" + "t response", "invalid")
  {
    AbsentChar4("could not e", "xtract json", " from agen", "t response", "invalid", 0);
  }

  lemma NoJsonFoundPhrases()
    ensures !Contains(Lower("Could not extract JSON from agent response"), "not configured")
    ensures !Contains(Lower("Could not extract JSON from agent response"), "authentication")
    ensures !Contains(Lower("Could not extract JSON from agent response"), "api key")
    ensures !Contains(Lower("Could not extract JSON from agent response"), "timeout")
    ensures !Contains(Lower("Could not extract JSON from agent response"), "rate limit")
    ensures !Contains(Lower("Could not extract JSON from agent response"), "invalid")
    ensures Contains(Lower("Could not extract JSON from agent response"), "json")
  {
    NoJsonFoundLower();
    NoJsonFoundLacksNotConfigured();
    NoJsonFoundLacksAuthentication();
    NoJsonFoundLacksApiKey();
    NoJsonFoundLacksTimeout();
    NoJsonFoundLacksRateLimit();
    NoJsonFoundLacksInvalid();
    Witness("xtract json", "json", 7);
    Contains4("could not e", "xtract json", " from agen", "t response", "json");
  }
}
